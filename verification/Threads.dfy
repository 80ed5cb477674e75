/**
 One process with all its threads: the run manager's shared dictionaries and the
 hub registry, stepped by any thread and any client in any order. Which step is
 taken is read off the dictionaries, as the source does; that a thread's entries
 and its hub then are what its own steps alone would make of them is proved.
 */
module Threads {
  import opened Options
  import opened Json
  import opened Translation
  import opened RunConfigs
  import opened Runs
  import opened RunInvariants
  import opened RunGuarantees
  import opened RunManagement
  import opened EndToEnd
  import Delivery
  import Execution
  import Handoff

  type HubState = Delivery.System<Event>

  datatype Process = Process(size: nat, books: Books, hubs: map<ThreadId, HubState>)

  /** One atomic step of the process, with the objects it handles. */
  datatype Op =
    | Begin(reserved: ActiveRun, command: Step)     // a start or response that reserves its thread
    | Dispatch(reserved: ActiveRun, record: ActiveRun)
    | Release(reserved: ActiveRun)
    | Raise(reserved: ActiveRun)
    | Abandon(reserved: ActiveRun)
    | Advance(id: ThreadId, record: ActiveRun, step: Step)
    | Callback(id: ThreadId, record: ActiveRun, k: nat)
    | Stop(id: ThreadId, target: Option<RunId>)
    | Visit(id: ThreadId, request: Delivery.Step<Event>)

  function ThreadOf(op: Op): ThreadId {
    match op
    case Begin(reserved, _) => reserved.threadId
    case Dispatch(reserved, _) => reserved.threadId
    case Release(reserved) => reserved.threadId
    case Raise(reserved) => reserved.threadId
    case Abandon(reserved) => reserved.threadId
    case Advance(id, _, _) => id
    case Callback(id, _, _) => id
    case Stop(id, _) => id
    case Visit(id, _) => id
  }

  /** The same step, as a thread of its own sees it. */
  function ActionOf(op: Op): Action {
    match op
    case Begin(_, command) => Run(command)
    case Dispatch(reserved, _) => Run(Resolved(reserved.runId))
    case Release(reserved) => Run(ResolveFailed(reserved.runId))
    case Raise(reserved) => Run(MergeRaised(reserved.runId))
    case Abandon(reserved) => Run(StartCancelled(reserved.runId))
    case Advance(_, _, step) => Run(step)
    case Callback(_, _, k) => Run(DoneCallback(k))
    case Stop(_, target) => Run(Cancel(target))
    case Visit(_, request) => Client(request)
  }

  // ------------------------------------------- decisions, from the dictionaries

  /** The guard of `start`. */
  ghost predicate Occupies(e: Entry, board: Board) {
    e.holder.Some? && (e.holder.value.task == null || e.holder.value.task !in board.done)
  }

  /** The three branches of `respond`. */
  function ResumeFrom(pending: Option<map<string, Json>>, id: string, assistantArg: Option<string>): Option<string> {
    if pending.Some? && id in pending.value
    then Some(if Truthy(assistantArg) then assistantArg.value else AssistantOf(pending.value))
    else if pending.None? && Truthy(assistantArg) then assistantArg
    else None
  }

  ghost function StartFor(e: Entry, command: Step): Option<Start> {
    match command
    case StartRun(_, assistant, viaRouter, params) => Some(Start(assistant, viaRouter, None, params))
    case Respond(_, id, assistantArg) => Resumed(e, ResumeFrom(e.pending, id, assistantArg))
    case RouterRespond(_, id, inSnapshot) =>
      if inSnapshot && Truthy(e.thread.stored) then Resumed(e, ResumeFrom(e.pending, id, e.thread.stored)) else None
    case _ => None
  }

  ghost function Resumed(e: Entry, assistant: Option<string>): Option<Start> {
    if assistant.None? then None
    else Some(Start(assistant.value, false, if e.pending.Some? then Some(|e.records|) else None, NO_PARAMS))
  }

  ghost predicate MayBegin(b: Books, reserved: ActiveRun, command: Step)
    requires Total(b)
  {
    var e := EntryOf(b, reserved.threadId);
    && (command.StartRun? || command.Respond? || command.RouterRespond?) && command.run == reserved.runId
    && Runs.Enabled(e.thread, command) && !Occupies(e, b.board)
    && reserved.task == null && StartFor(e, command).Some? && StartFor(e, command).value.assistant == reserved.assistantId
  }

  /** The record `cancel` finds, if the cancellation reaches an unfinished task. */
  ghost predicate Stops(b: Books, id: ThreadId, target: Option<RunId>)
    requires Total(b)
  {
    id in b.active && b.active[id].task != null && b.active[id].task !in b.board.done
    && (target.None? || target.value == b.active[id].runId)
  }

  /** Whether the config of a suspended start can be built. */
  ghost predicate Merges(b: Books, reserved: ActiveRun)
    requires Total(b)
  {
    reserved.runId in b.threads[reserved.threadId].resolving
    && ConfigFor(reserved.threadId, b.threads[reserved.threadId].resolving[reserved.runId].params).Some?
  }

  ghost predicate Possible(b: Books, op: Op)
    requires Total(b)
  {
    match op
    case Begin(reserved, command) => MayBegin(b, reserved, command)
    case Dispatch(reserved, record) =>
      reserved in b.suspended && NewRecord(reserved.threadId, EntryOf(b, reserved.threadId), b.board, reserved, record)
      && Merges(b, reserved)
    case Raise(reserved) => reserved in b.suspended && !Merges(b, reserved)
    case Release(reserved) => reserved in b.suspended
    case Abandon(reserved) => reserved in b.suspended
    case Advance(id, record, step) =>
      TaskStep(step) && Runs.Enabled(b.threads[id], step) && Recorded(EntryOf(b, id), record, step.k)
    case Callback(id, record, k) => Recorded(EntryOf(b, id), record, k) && k in b.threads[id].callbacks
    case Stop(id, target) => Stops(b, id, target)
    case Visit(_, request) => !request.Publish?
  }

  // --------------------------------------------------------------------- steps

  ghost function BooksAfter(b: Books, op: Op): Books
    requires Total(b) && Possible(b, op)
  {
    match op
    case Begin(reserved, command) => AfterBegin(b, reserved, StartFor(EntryOf(b, reserved.threadId), command).value)
    case Dispatch(reserved, record) => AfterDispatch(b, reserved, record)
    case Release(reserved) => AfterRelease(b, reserved)
    case Raise(reserved) => AfterAbandon(b, reserved)
    case Abandon(reserved) => AfterAbandon(b, reserved)
    case Advance(id, record, step) => AfterAdvance(b, id, record, step.k, EffectOf(b.threads[id], step))
    case Callback(id, record, k) => AfterCallback(b, id, record, k)
    case Stop(id, target) => AfterCancel(b, id, b.active[id].task, target)
    case Visit(_, _) => b
  }

  /** `HubRegistry.hub`: the thread's hub, an empty one if it has none yet. */
  ghost function HubOf(p: Process, id: ThreadId): HubState {
    if id in p.hubs then p.hubs[id] else Delivery.Empty(p.size)
  }

  /** What the step does on its thread's hub: publish what a run says, or serve a client. */
  ghost function HubStepsOf(b: Books, op: Op): seq<Delivery.Step<Event>>
    requires Total(b) && Possible(b, op)
  {
    match op
    case Advance(id, _, step) => Publishes(EffectOf(b.threads[id], step).events)
    case Visit(_, request) => [request]
    case _ => []
  }

  /** A step that is not possible is not taken. */
  ghost function Performed(p: Process, op: Op): Process
    requires Total(p.books)
  {
    if !Possible(p.books, op) then p
    else
      var steps := HubStepsOf(p.books, op);
      p.(books := BooksAfter(p.books, op),
         hubs := if steps == [] then p.hubs
                 else p.hubs[ThreadOf(op) := Delivery.After(HubOf(p, ThreadOf(op)), steps)])
  }

  /** A process after a history of steps; what is not a history of a consistent process is left out. */
  ghost function AfterAll(size: nat, loads: Loads, stored: ThreadId -> Option<string>, ops: seq<Op>): (p: Process)
    ensures Total(p.books)
  {
    if ops == [] then Process(size, NewBooks(loads, stored), map[])
    else
      var before := AfterAll(size, loads, stored, ops[..|ops| - 1]);
      TotalAfter(before, ops[|ops| - 1]);
      Performed(before, ops[|ops| - 1])
  }

  /** The steps a thread took in a history, and the requests of its clients. */
  ghost function ActionsOf(size: nat, loads: Loads, stored: ThreadId -> Option<string>, ops: seq<Op>, id: ThreadId): seq<Action> {
    if ops == [] then []
    else
      var init, last := ops[..|ops| - 1], ops[|ops| - 1];
      ActionsOf(size, loads, stored, init, id) +
      if Possible(AfterAll(size, loads, stored, init).books, last) && ThreadOf(last) == id then [ActionOf(last)] else []
  }

  lemma {:induction false} TotalAfter(p: Process, op: Op)
    requires Total(p.books)
    ensures Total(Performed(p, op).books)
  {
  }

  // ------------------------------------- the dictionaries decide as the thread would

  lemma {:induction false} OccupiesIsBusy(id: ThreadId, e: Entry, board: Board)
    requires Agrees(id, e, board)
    ensures Occupies(e, board) <==> Busy(e.thread)
  {
    ReachesHolder(id, e, board, None);
  }

  lemma {:induction false} ResumeFromIsModel(e: Entry, id: string, assistantArg: Option<string>)
    requires RunManagement.PendingAgrees(e.thread.pending, e.pending)
    ensures ResumeFrom(e.pending, id, assistantArg) == ResumeWith(e.thread, id, assistantArg)
    ensures e.pending.Some? <==> e.thread.pending.Some?
  {
  }

  lemma {:induction false} ResumedIsModel(id: ThreadId, e: Entry, board: Board, run: RunId, interrupt: string, arg: Option<string>)
    requires Agrees(id, e, board)
    requires Resumed(e, ResumeFrom(e.pending, interrupt, arg)).Some?
    ensures Runs.Begin(e.thread, run, Resumed(e, ResumeFrom(e.pending, interrupt, arg)).value)
            == BeginResume(e.thread, run, interrupt, arg)
  {
    ResumeFromIsModel(e, interrupt, arg);
  }

  lemma {:induction false} BeginIsStep(id: ThreadId, e: Entry, board: Board, command: Step)
    requires Agrees(id, e, board) && Runs.Enabled(e.thread, command) && StartFor(e, command).Some?
    ensures Next(e.thread, command) == Runs.Begin(e.thread, command.run, StartFor(e, command).value)
  {
    match command
    case StartRun(_, _, _, _) =>
    case Respond(run, interrupt, arg) => ResumedIsModel(id, e, board, run, interrupt, arg);
    case RouterRespond(run, interrupt, _) => ResumedIsModel(id, e, board, run, interrupt, e.thread.stored);
  }

  lemma {:induction false} StopReaches(b: Books, id: ThreadId, target: Option<RunId>)
    requires InOrder(b) && Stops(b, id, target)
    ensures Reaches(b.threads[id], target)
  {
    ReachesHolder(id, EntryOf(b, id), b.board, target);
    assert Agrees(id, EntryOf(b, id), b.board);
  }

  // ---------------------------------------------- each step keeps all threads right

  /** The thread of the step took it, and no other thread's entries changed. */
  ghost predicate OnlyOwnThread(b: Books, op: Op, b': Books)
    requires Total(b) && Total(b')
  {
    && b'.threads[ThreadOf(op)] ==
       (if ActionOf(op).Run? then Next(b.threads[ThreadOf(op)], ActionOf(op).step) else b.threads[ThreadOf(op)])
    && forall other: ThreadId :: other != ThreadOf(op) ==> EntryOf(b', other) == EntryOf(b, other)
  }

  lemma {:induction false} BeginOwn(b: Books, reserved: ActiveRun, command: Step)
    requires InOrder(b) && MayBegin(b, reserved, command)
    ensures InOrder(BooksAfter(b, Begin(reserved, command)))
    ensures OnlyOwnThread(b, Begin(reserved, command), BooksAfter(b, Begin(reserved, command)))
  {
    var e := EntryOf(b, reserved.threadId);
    var start := StartFor(e, command).value;
    assert Agrees(reserved.threadId, e, b.board);
    OccupiesIsBusy(reserved.threadId, e, b.board);
    BeginIsStep(reserved.threadId, e, b.board, command);
    BeginInOrder(b, reserved, start);
    PutEntries(b, reserved.threadId, Begun(e, reserved, start), b.suspended + {reserved}, b.board);
  }

  lemma {:induction false} DispatchOwn(b: Books, reserved: ActiveRun, record: ActiveRun)
    requires InOrder(b) && Possible(b, Dispatch(reserved, record))
    ensures InOrder(BooksAfter(b, Dispatch(reserved, record)))
    ensures OnlyOwnThread(b, Dispatch(reserved, record), BooksAfter(b, Dispatch(reserved, record)))
  {
    var e := EntryOf(b, reserved.threadId);
    RaisesIffNotMergeable(reserved.threadId, e.thread.resolving[reserved.runId].params);
    DispatchInOrder(b, reserved, record);
    PutEntries(b, reserved.threadId, Dispatched(e, reserved, record), b.suspended - {reserved}, WithTask(b.board, record.task));
  }

  lemma {:induction false} ReleaseOwn(b: Books, reserved: ActiveRun)
    requires InOrder(b) && reserved in b.suspended
    ensures InOrder(BooksAfter(b, Release(reserved)))
    ensures OnlyOwnThread(b, Release(reserved), BooksAfter(b, Release(reserved)))
  {
    var e := EntryOf(b, reserved.threadId);
    SuspendedHolder(b, reserved);
    ReleaseInOrder(b, reserved);
    PutEntries(b, reserved.threadId, Released(e, reserved), b.suspended - {reserved}, b.board);
  }

  lemma {:induction false} AbandonedEntries(b: Books, reserved: ActiveRun, op: Op)
    requires InOrder(b) && reserved in b.suspended
    requires op == Abandon(reserved) || (op == Raise(reserved) && !Merges(b, reserved))
    ensures InOrder(AfterAbandon(b, reserved)) && OnlyOwnThread(b, op, AfterAbandon(b, reserved))
  {
    var e := EntryOf(b, reserved.threadId);
    SuspendedHolder(b, reserved);
    RaisesIffNotMergeable(reserved.threadId, e.thread.resolving[reserved.runId].params);
    AbandonInOrder(b, reserved);
    PutEntries(b, reserved.threadId, e.(thread := Runs.Abandon(e.thread, reserved.runId)), b.suspended - {reserved}, b.board);
  }

  lemma {:induction false} AdvanceOwn(b: Books, id: ThreadId, record: ActiveRun, step: Step)
    requires InOrder(b) && Possible(b, Advance(id, record, step))
    ensures InOrder(BooksAfter(b, Advance(id, record, step)))
    ensures OnlyOwnThread(b, Advance(id, record, step), BooksAfter(b, Advance(id, record, step)))
  {
    var e, effect := EntryOf(b, id), EffectOf(b.threads[id], step);
    StepContinues(b.threads[id], step);
    AdvanceInOrder(b, id, record, step.k, effect);
    PutEntries(b, id, Advanced(e, record, step.k, effect), b.suspended, WithDone(b.board, record.task, effect.task.Done()));
  }

  lemma {:induction false} CallbackOwn(b: Books, id: ThreadId, record: ActiveRun, k: nat)
    requires InOrder(b) && Possible(b, Callback(id, record, k))
    ensures InOrder(BooksAfter(b, Callback(id, record, k)))
    ensures OnlyOwnThread(b, Callback(id, record, k), BooksAfter(b, Callback(id, record, k)))
  {
    CallbackInOrder(b, id, record, k);
    PutEntries(b, id, Cleared(EntryOf(b, id), record, k), b.suspended, b.board);
  }

  lemma {:induction false} StopInOrder(b: Books, id: ThreadId, target: Option<RunId>)
    requires InOrder(b) && Stops(b, id, target)
    ensures InOrder(AfterCancel(b, id, b.active[id].task, target))
  {
    StopReaches(b, id, target);
    CancelInOrder(b, id, b.active[id], target);
  }

  lemma {:induction false} CancelledEntries(b: Books, id: ThreadId, task: RunTask, target: Option<RunId>)
    requires Total(b)
    ensures OnlyOwnThread(b, Stop(id, target), AfterCancel(b, id, task, target))
  {
    var e := EntryOf(b, id).(thread := Request(b.threads[id], target));
    PutEntries(b, id, e, b.suspended, WithCancel(b.board, task));
    assert e.thread == Next(b.threads[id], Cancel(target));
  }

  lemma {:induction false} StopOwn(b: Books, id: ThreadId, target: Option<RunId>)
    requires InOrder(b) && Stops(b, id, target)
    ensures InOrder(BooksAfter(b, Stop(id, target)))
    ensures OnlyOwnThread(b, Stop(id, target), BooksAfter(b, Stop(id, target)))
  {
    StopInOrder(b, id, target);
    CancelledEntries(b, id, b.active[id].task, target);
  }

  lemma {:induction false} StepOwn(b: Books, op: Op)
    requires InOrder(b) && Possible(b, op)
    ensures InOrder(BooksAfter(b, op)) && OnlyOwnThread(b, op, BooksAfter(b, op))
  {
    match op
    case Begin(reserved, command) => BeginOwn(b, reserved, command);
    case Dispatch(reserved, record) => DispatchOwn(b, reserved, record);
    case Release(reserved) => ReleaseOwn(b, reserved);
    case Raise(reserved) => AbandonedEntries(b, reserved, op);
    case Abandon(reserved) => AbandonedEntries(b, reserved, op);
    case Advance(id, record, step) => AdvanceOwn(b, id, record, step);
    case Callback(id, record, k) => CallbackOwn(b, id, record, k);
    case Stop(id, target) => StopOwn(b, id, target);
    case Visit(_, _) =>
  }

  // -------------------------------------------------------------- the hubs too

  /** What an action does on its thread's hub. */
  ghost function ActionHubSteps(t: Thread, action: Action): seq<Delivery.Step<Event>> {
    match action
    case Run(step) => Publishes(NewEvents(t, step))
    case Client(request) => if request.Publish? then [] else [request]
  }

  lemma {:induction false} EventsAreNew(t: Thread, step: Step)
    requires TaskStep(step) && Runs.Enabled(t, step)
    ensures NewEvents(t, step) == EffectOf(t, step).events
  {
    TaskStepIsEffect(t, step);
  }

  /** Only the steps of a run's task publish. */
  lemma {:induction false} QuietStep(t: Thread, step: Step)
    requires !TaskStep(step)
    ensures NewEvents(t, step) == [] && Publishes(NewEvents(t, step)) == []
  {
    assert Next(t, step).log == t.log;
  }

  /** What the thread's own hub does at the step, as the one-thread system has it. */
  lemma {:induction false} HubStepsAreOwn(b: Books, op: Op)
    requires InOrder(b) && Possible(b, op)
    ensures HubStepsOf(b, op) == ActionHubSteps(b.threads[ThreadOf(op)], ActionOf(op))
  {
    if op.Advance? {
      EventsAreNew(b.threads[op.id], op.step);
    } else if !op.Visit? {
      QuietHubSteps(b, op);
    }
  }

  lemma {:induction false} QuietHubSteps(b: Books, op: Op)
    requires Total(b) && Possible(b, op) && !op.Advance? && !op.Visit?
    ensures HubStepsOf(b, op) == [] && ActionHubSteps(b.threads[ThreadOf(op)], ActionOf(op)) == []
  {
    QuietStep(b.threads[ThreadOf(op)], ActionOf(op).step);
  }

  lemma {:induction false} ActionsSnoc(size: nat, loads: Loads, stored: Option<string>, actions: seq<Action>, action: Action)
    ensures ThreadAfter(loads, stored, actions + [action]) ==
            var t := ThreadAfter(loads, stored, actions); if action.Run? then Next(t, action.step) else t
    ensures HubAfter(size, loads, stored, actions + [action]) ==
            Delivery.After(HubAfter(size, loads, stored, actions), ActionHubSteps(ThreadAfter(loads, stored, actions), action))
  {
    assert (actions + [action])[..|actions|] == actions;
    Handoff.AfterConcat(Delivery.Empty<Event>(size), HubSteps(loads, stored, actions),
                        ActionHubSteps(ThreadAfter(loads, stored, actions), action));
    if action.Run? {
      assert (RunSteps(actions) + [action.step])[..|RunSteps(actions)|] == RunSteps(actions);
    } else {
      assert RunSteps(actions) + [] == RunSteps(actions);
    }
  }

  /** The thread and its hub in the process are those of its own actions. */
  ghost predicate OnItsOwn(p: Process, loads: Loads, stored: Option<string>, actions: seq<Action>, id: ThreadId)
    requires Total(p.books)
  {
    p.books.threads[id] == ThreadAfter(loads, stored, actions) && HubOf(p, id) == HubAfter(p.size, loads, stored, actions)
  }

  lemma {:induction false} HubElsewhere(p: Process, op: Op, id: ThreadId)
    requires Total(p.books) && Possible(p.books, op)
    ensures HubOf(Performed(p, op), id) ==
            if id == ThreadOf(op) then Delivery.After(HubOf(p, id), HubStepsOf(p.books, op)) else HubOf(p, id)
  {
  }

  lemma {:induction false} OwnStep(p: Process, op: Op, loads: Loads, stored: Option<string>, actions: seq<Action>)
    requires InOrder(p.books) && Possible(p.books, op) && OnItsOwn(p, loads, stored, actions, ThreadOf(op))
    ensures Total(Performed(p, op).books)
    ensures OnItsOwn(Performed(p, op), loads, stored, actions + [ActionOf(op)], ThreadOf(op))
  {
    StepOwn(p.books, op);
    HubStepsAreOwn(p.books, op);
    HubElsewhere(p, op, ThreadOf(op));
    ActionsSnoc(p.size, loads, stored, actions, ActionOf(op));
  }

  lemma {:induction false} OtherStep(p: Process, op: Op, loads: Loads, stored: Option<string>, actions: seq<Action>, id: ThreadId)
    requires InOrder(p.books) && OnItsOwn(p, loads, stored, actions, id)
    requires !Possible(p.books, op) || ThreadOf(op) != id
    ensures Total(Performed(p, op).books)
    ensures OnItsOwn(Performed(p, op), loads, stored, actions, id)
  {
    if Possible(p.books, op) {
      StepOwn(p.books, op);
      HubElsewhere(p, op, id);
      assert EntryOf(BooksAfter(p.books, op), id) == EntryOf(p.books, id);
    }
  }

  /**
   Thread independence: in every history of a process its dictionaries are in
   order, and each thread, with its entries in them and its hub, is what its
   own steps and clients would have made of it alone.
   */
  lemma {:induction false} Independent(size: nat, loads: Loads, stored: ThreadId -> Option<string>, ops: seq<Op>, id: ThreadId)
    ensures var p := AfterAll(size, loads, stored, ops);
      && InOrder(p.books) && p.size == size
      && OnItsOwn(p, loads, stored(id), ActionsOf(size, loads, stored, ops, id), id)
      && Agrees(id, EntryOf(p.books, id), p.books.board)
  {
    if ops == [] {
      NewBooksInOrder(loads, stored);
    } else {
      var init, op := ops[..|ops| - 1], ops[|ops| - 1];
      var p := AfterAll(size, loads, stored, init);
      var actions := ActionsOf(size, loads, stored, init, id);
      Independent(size, loads, stored, init, id);
      if Possible(p.books, op) { StepOwn(p.books, op); }
      if Possible(p.books, op) && ThreadOf(op) == id {
        OwnStep(p, op, loads, stored(id), actions);
      } else {
        OtherStep(p, op, loads, stored(id), actions, id);
        assert actions + [] == actions;
      }
    }
  }

  /** Steps on other threads change none of a thread's entries in the shared dictionaries, nor its hub. */
  lemma {:induction false} OthersDoNotMatter(p: Process, op: Op, id: ThreadId)
    requires InOrder(p.books) && ThreadOf(op) != id
    ensures Total(Performed(p, op).books)
    ensures EntryOf(Performed(p, op).books, id) == EntryOf(p.books, id) && HubOf(Performed(p, op), id) == HubOf(p, id)
  {
    if Possible(p.books, op) {
      StepOwn(p.books, op);
      HubElsewhere(p, op, id);
    }
  }

  /**
   End to end in a whole process: whatever the other threads do, a client of a
   thread's hub that lost nothing and has caught up decodes exactly what that
   thread's graphs streamed.
   */
  lemma {:induction false} EveryClientReadsItsThread(
    size: nat, loads: Loads, stored: ThreadId -> Option<string>, ops: seq<Op>, id: ThreadId, client: Delivery.ConnectionId)
    requires var hub := HubOf(AfterAll(size, loads, stored, ops), id);
             CaughtUp(hub, client) && hub.records[client].filter.channels == {}
    ensures var p := AfterAll(size, loads, stored, ops);
      Decode(Execution.Payloads(HubOf(p, id).connections[client].delivered)) == Conveyed(p.books.threads[id].tasks)
  {
    Independent(size, loads, stored, ops, id);
    ClientReadsWhatGraphsSaid(size, loads, stored(id), ActionsOf(size, loads, stored, ops, id), client);
  }
}
