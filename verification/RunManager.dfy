/**
 The run manager's dictionaries as a mutable object
 (src/fastapi_agent_protocol/runner.py), shared by all threads. Each method is
 one stretch of code between two awaits, proved to change its own thread as
 the step functions of `Runs` say, and no other thread.
 */
module RunManagement {
  import opened Options
  import opened Json
  import opened Translation
  import opened RunConfigs
  import opened Runs
  import opened RunInvariants

  type ThreadId = string

  /** An asyncio task as the manager sees it: whether it is done, and a way to cancel it. */
  class RunTask {
    ghost const threadId: ThreadId
    ghost const position: nat
    var done: bool
    var cancelRequested: bool

    constructor (ghost threadId: ThreadId, ghost position: nat)
      ensures this.threadId == threadId && this.position == position && !done && !cancelRequested
    {
      this.threadId, this.position := threadId, position;
      done, cancelRequested := false, false;
    }

    /** Cancelling a task that is done has no effect. */
    method Cancel()
      modifies this`cancelRequested
      ensures cancelRequested == (old(cancelRequested) || !done)
    {
      if !done {
        cancelRequested := true;
      }
    }
  }

  /** A slot holder: a reservation while `task` is null. */
  class ActiveRun {
    const runId: RunId
    const threadId: ThreadId
    const assistantId: string
    const task: RunTask?

    constructor (runId: RunId, threadId: ThreadId, assistantId: string, task: RunTask?)
      ensures this.runId == runId && this.threadId == threadId
      ensures this.assistantId == assistantId && this.task == task
    {
      this.runId, this.threadId, this.assistantId, this.task := runId, threadId, assistantId, task;
    }
  }

  datatype Rejection = RunActive(holder: RunId) | UnknownInterrupt
  datatype StartResult = Held(record: ActiveRun) | Rejected(error: Rejection)

  function Get<V>(m: map<ThreadId, V>, threadId: ThreadId): Option<V> {
    if threadId in m then Some(m[threadId]) else None
  }

  /** The pending map as the dictionary it is: the assistant under a reserved key, then the payloads. */
  function Encoded(p: Pending): map<string, Json> {
    map["assistant_id" := Str(p.assistant)] + p.payloads
  }

  // ------------------------------------------------ what the dictionaries stand for

  /** What the event loop knows of the tasks created so far. */
  datatype Board = Board(known: set<RunTask>, done: set<RunTask>, cancelling: set<RunTask>)

  /** One thread's entries in the manager's dictionaries, beside the thread as the step functions see it. */
  datatype Entry = Entry(
    thread: Thread,
    records: seq<ActiveRun>,  // the record of every run ever dispatched
    holder: Option<ActiveRun>,
    pending: Option<map<string, Json>>,
    last: Option<string>)

  /** The `k`-th record of a thread stands for its `k`-th task. */
  ghost predicate Stands(id: ThreadId, k: nat, r: ActiveRun, task: Task, board: Board) {
    && r.task != null && r.task in board.known
    && r.task.threadId == id && r.task.position == k
    && r.runId == task.run && r.threadId == id && r.assistantId == task.assistant
    && (r.task in board.done <==> task.Done())
    && (!task.Done() ==> (r.task in board.cancelling <==> task.cancelRequested))
  }

  ghost predicate RecordsAgree(id: ThreadId, tasks: seq<Task>, records: seq<ActiveRun>, board: Board) {
    && |records| == |tasks|
    && forall k :: 0 <= k < |records| ==> Stands(id, k, records[k], tasks[k], board)
  }

  ghost predicate HolderAgrees(slot: Option<Slot>, records: seq<ActiveRun>, holder: Option<ActiveRun>) {
    match slot
    case None => holder == None
    case Some(Reserved(run)) => holder.Some? && holder.value.task == null && holder.value.runId == run
    case Some(Occupied(k)) => k < |records| && holder == Some(records[k])
  }

  ghost predicate PendingAgrees(pending: Option<Pending>, stored: Option<map<string, Json>>) {
    match pending
    case None => stored == None
    case Some(p) => "assistant_id" !in p.payloads && stored == Some(Encoded(p))
  }

  ghost predicate Agrees(id: ThreadId, e: Entry, board: Board) {
    && SlotInv(e.thread)
    && RecordsAgree(id, e.thread.tasks, e.records, board)
    && HolderAgrees(e.thread.active, e.records, e.holder)
    && PendingAgrees(e.thread.pending, e.pending)
    && e.thread.lastAssistant == e.last
  }

  /** A suspended start holds its thread's slot. */
  ghost predicate Holds(r: ActiveRun, e: Entry) {
    && r.task == null && e.holder == Some(r)
    && r.runId in e.thread.resolving && e.thread.resolving[r.runId].assistant == r.assistantId
  }

  datatype Books = Books(
    active: map<ThreadId, ActiveRun>,
    pendingInputs: map<ThreadId, map<string, Json>>,
    lastAssistant: map<ThreadId, string>,
    threads: imap<ThreadId, Thread>,
    records: imap<ThreadId, seq<ActiveRun>>,
    suspended: set<ActiveRun>,  // reservations whose graph is resolving
    board: Board)

  ghost predicate Total(b: Books) {
    forall id: ThreadId :: id in b.threads && id in b.records
  }

  ghost function EntryOf(b: Books, id: ThreadId): Entry
    requires Total(b)
  {
    Entry(b.threads[id], b.records[id], Get(b.active, id), Get(b.pendingInputs, id), Get(b.lastAssistant, id))
  }

  ghost predicate InOrder(b: Books) {
    && Total(b)
    && b.board.done <= b.board.known && b.board.cancelling <= b.board.known
    && (forall id: ThreadId :: Agrees(id, EntryOf(b, id), b.board))
    && (forall r <- b.suspended :: Holds(r, EntryOf(b, r.threadId)))
  }

  function NoRecords(id: ThreadId): seq<ActiveRun> { [] }

  /** The books of a new manager: empty dictionaries, and nothing run on any thread. */
  ghost function NewBooks(loads: Loads, stored: ThreadId -> Option<string>): Books {
    Books(map[], map[], map[], imap id: ThreadId :: NewThread(loads, stored(id)), imap id: ThreadId :: NoRecords(id), {}, Board({}, {}, {}))
  }

  lemma {:induction false} NewBooksInOrder(loads: Loads, stored: ThreadId -> Option<string>)
    ensures InOrder(NewBooks(loads, stored))
  {
    var b := NewBooks(loads, stored);
    forall id: ThreadId ensures Agrees(id, EntryOf(b, id), b.board) {
      NewThreadInv(loads, stored(id));
    }
  }

  // ------------------------------------------------------- changing one thread

  function Set<V>(m: map<ThreadId, V>, id: ThreadId, value: Option<V>): map<ThreadId, V> {
    if value.Some? then m[id := value.value] else m - {id}
  }

  lemma {:induction false} SetToItself<V>(m: map<ThreadId, V>, id: ThreadId)
    ensures Set(m, id, Get(m, id)) == m
  {
  }

  /** The books with one thread's entries replaced. */
  ghost function Put(b: Books, id: ThreadId, e: Entry, suspended: set<ActiveRun>, board: Board): Books {
    Books(Set(b.active, id, e.holder), Set(b.pendingInputs, id, e.pending), Set(b.lastAssistant, id, e.last),
          b.threads[id := e.thread], b.records[id := e.records], suspended, board)
  }

  lemma {:induction false} PutEntries(b: Books, id: ThreadId, e: Entry, suspended: set<ActiveRun>, board: Board)
    requires Total(b)
    ensures Total(Put(b, id, e, suspended, board))
    ensures EntryOf(Put(b, id, e, suspended, board), id) == e
    ensures forall other: ThreadId :: other != id ==>
              EntryOf(Put(b, id, e, suspended, board), other) == EntryOf(b, other)
  {
  }

  /** Boards that differ in tasks of one thread only. */
  ghost predicate SameTasksElsewhere(board: Board, board': Board, id: ThreadId) {
    && board'.done <= board'.known && board'.cancelling <= board'.known
    && forall task <- board.known :: task.threadId != id ==>
      && task in board'.known
      && (task in board'.done <==> task in board.done)
      && (task in board'.cancelling <==> task in board.cancelling)
  }

  lemma {:induction false} AgreesElsewhere(id: ThreadId, e: Entry, board: Board, board': Board, changed: ThreadId)
    requires Agrees(id, e, board) && SameTasksElsewhere(board, board', changed) && id != changed
    ensures Agrees(id, e, board')
  {
    forall k | 0 <= k < |e.records| ensures Stands(id, k, e.records[k], e.thread.tasks[k], board') {
      assert Stands(id, k, e.records[k], e.thread.tasks[k], board);
    }
  }

  lemma {:induction false} PutInOrder(b: Books, id: ThreadId, e: Entry, suspended: set<ActiveRun>, board: Board)
    requires InOrder(b) && Agrees(id, e, board) && SameTasksElsewhere(b.board, board, id)
    requires forall r <- suspended :: (r in b.suspended && r.threadId != id) || (r.threadId == id && Holds(r, e))
    ensures InOrder(Put(b, id, e, suspended, board))
  {
    PutEntries(b, id, e, suspended, board);
    var b' := Put(b, id, e, suspended, board);
    forall other: ThreadId ensures Agrees(other, EntryOf(b', other), board) {
      if other != id { AgreesElsewhere(other, EntryOf(b, other), b.board, board, id); }
    }
    forall r | r in suspended ensures Holds(r, EntryOf(b', r.threadId)) {
      if r.threadId != id { assert Holds(r, EntryOf(b, r.threadId)); }
    }
  }

  /** A thread has at most one suspended start, the holder of its slot, and none when it is free. */
  lemma {:induction false} SuspendedHolder(b: Books, r: ActiveRun)
    requires InOrder(b) && r in b.suspended
    ensures Get(b.active, r.threadId) == Some(r) && Busy(b.threads[r.threadId])
    ensures Holds(r, EntryOf(b, r.threadId)) && Agrees(r.threadId, EntryOf(b, r.threadId), b.board)
  {
    assert Holds(r, EntryOf(b, r.threadId));
    assert Agrees(r.threadId, EntryOf(b, r.threadId), b.board);
    OnlyReservation(b.threads[r.threadId], r.runId);
  }

  // ------------------------------------- one thread's entries, step by step

  ghost function Begun(e: Entry, reserved: ActiveRun, start: Start): Entry {
    e.(thread := Runs.Begin(e.thread, reserved.runId, start), holder := Some(reserved))
  }

  lemma {:induction false} BegunAgrees(id: ThreadId, e: Entry, board: Board, reserved: ActiveRun, start: Start)
    requires Agrees(id, e, board) && !Busy(e.thread)
    requires reserved.task == null && reserved.assistantId == start.assistant
    ensures Agrees(id, Begun(e, reserved, start), board) && Holds(reserved, Begun(e, reserved, start))
  {
    BeginSlot(e.thread, reserved.runId, start);
  }

  ghost function Released(e: Entry, reserved: ActiveRun): Entry {
    e.(thread := Release(e.thread, reserved.runId), holder := None)
  }

  lemma {:induction false} ReleasedAgrees(id: ThreadId, e: Entry, board: Board, reserved: ActiveRun)
    requires Agrees(id, e, board) && Holds(reserved, e)
    ensures Agrees(id, Released(e, reserved), board)
  {
    OnlyReservation(e.thread, reserved.runId);
    ReleaseSlot(e.thread, reserved.runId);
  }

  ghost function Dispatched(e: Entry, reserved: ActiveRun, record: ActiveRun): Entry
    requires reserved.runId in e.thread.resolving
  {
    Entry(Runs.Dispatch(e.thread, reserved.runId), e.records + [record], Some(record), None, Some(reserved.assistantId))
  }

  ghost predicate NewRecord(id: ThreadId, e: Entry, board: Board, reserved: ActiveRun, record: ActiveRun) {
    && record.runId == reserved.runId && record.threadId == id && record.assistantId == reserved.assistantId
    && record.task != null && record.task.threadId == id && record.task.position == |e.thread.tasks|
    && record.task !in board.done && record.task !in board.cancelling
  }

  function WithTask(board: Board, task: RunTask): Board { board.(known := board.known + {task}) }

  lemma {:induction false} DispatchedAgrees(id: ThreadId, e: Entry, board: Board, reserved: ActiveRun, record: ActiveRun)
    requires Agrees(id, e, board) && Holds(reserved, e) && NewRecord(id, e, board, reserved, record)
    ensures Agrees(id, Dispatched(e, reserved, record), WithTask(board, record.task))
  {
    var board' := WithTask(board, record.task);
    DispatchSlot(e.thread, reserved.runId);
    forall k | 0 <= k < |e.records| ensures Stands(id, k, e.records[k], e.thread.tasks[k], board') {
      assert Stands(id, k, e.records[k], e.thread.tasks[k], board);
    }
  }

  ghost predicate Recorded(e: Entry, record: ActiveRun, k: nat) {
    record.task != null && k < |e.records| && e.records[k] == record
  }

  ghost function Cleared(e: Entry, record: ActiveRun, k: nat): Entry {
    e.(thread := Next(e.thread, DoneCallback(k)), holder := if e.holder == Some(record) then None else e.holder)
  }

  /** The slot is this record exactly when the thread's slot is this position. */
  lemma {:induction false} HolderIsPosition(id: ThreadId, e: Entry, board: Board, record: ActiveRun, k: nat)
    requires Agrees(id, e, board) && Recorded(e, record, k)
    ensures e.holder == Some(record) <==> e.thread.active == Some(Occupied(k))
  {
    assert Stands(id, k, record, e.thread.tasks[k], board);
    if e.thread.active.Some? && e.thread.active.value.Occupied? {
      var j := e.thread.active.value.position;
      assert Stands(id, j, e.records[j], e.thread.tasks[j], board);
    }
  }

  lemma {:induction false} ClearedAgrees(id: ThreadId, e: Entry, board: Board, record: ActiveRun, k: nat)
    requires Agrees(id, e, board) && Recorded(e, record, k) && k in e.thread.callbacks
    ensures Agrees(id, Cleared(e, record, k), board)
  {
    HolderIsPosition(id, e, board, record, k);
    CallbackSlot(e.thread, k);
  }

  lemma {:induction false} RecordsReplaced(
    id: ThreadId, tasks: seq<Task>, records: seq<ActiveRun>, board: Board, k: nat, task': Task, board': Board)
    requires RecordsAgree(id, tasks, records, board) && k < |tasks| && Stands(id, k, records[k], task', board')
    requires board'.known == board.known
    requires forall task <- board.known :: task != records[k].task ==>
      (task in board'.done <==> task in board.done) && (task in board'.cancelling <==> task in board.cancelling)
    ensures RecordsAgree(id, tasks[k := task'], records, board')
  {
    forall j | 0 <= j < |records| ensures Stands(id, j, records[j], tasks[k := task'][j], board') {
      assert Stands(id, j, records[j], tasks[j], board);
      assert Stands(id, k, records[k], tasks[k], board);
    }
  }

  /** Whether a cancellation reaches an unfinished task. */
  predicate Reaches(t: Thread, target: Option<RunId>) {
    match t.active
    case Some(Occupied(k)) => k < |t.tasks| && !t.tasks[k].Done() && (target.None? || target.value == t.tasks[k].run)
    case _ => false
  }

  function WithCancel(board: Board, task: RunTask): Board { board.(cancelling := board.cancelling + {task}) }

  lemma {:induction false} CancelledAgrees(id: ThreadId, e: Entry, board: Board, record: ActiveRun, target: Option<RunId>)
    requires Agrees(id, e, board) && Reaches(e.thread, target) && e.holder == Some(record)
    ensures record.task != null && record.task in board.known && record.task.threadId == id
    ensures Agrees(id, e.(thread := Request(e.thread, target)), WithCancel(board, record.task))
  {
    var t, k := e.thread, e.thread.active.value.position;
    assert Stands(id, k, record, t.tasks[k], board);
    CancelSlot(t, target);
    RecordsReplaced(id, t.tasks, e.records, board, k, t.tasks[k].(cancelRequested := true), WithCancel(board, record.task));
  }

  /** A record in the slot tells whether a cancellation reaches its task. */
  lemma {:induction false} ReachesHolder(id: ThreadId, e: Entry, board: Board, target: Option<RunId>)
    requires Agrees(id, e, board)
    ensures Reaches(e.thread, target) <==>
            e.holder.Some? && e.holder.value.task != null && e.holder.value.task !in board.done
            && (target.None? || target.value == e.holder.value.runId)
    ensures e.holder.Some? && e.holder.value.task != null ==> e.holder.value.task in board.known
  {
    if e.thread.active.Some? && e.thread.active.value.Occupied? {
      var k := e.thread.active.value.position;
      assert Stands(id, k, e.records[k], e.thread.tasks[k], board);
    }
  }

  /** The thread after a task step with the given effect. */
  ghost function Taken(t: Thread, k: nat, effect: Effect): Thread
    requires k < |t.tasks|
  {
    Publish(if effect.registered == [] then t
            else t.(pending := Some(Pending(t.tasks[k].assistant, PayloadsOf(effect.registered)))),
            k, effect.task, effect.events)
  }

  ghost function Advanced(e: Entry, record: ActiveRun, k: nat, effect: Effect): Entry
    requires k < |e.thread.tasks|
  {
    e.(thread := Taken(e.thread, k, effect),
       pending := if effect.registered == [] then e.pending
                  else Some(Encoded(Pending(record.assistantId, PayloadsOf(effect.registered)))))
  }

  function WithDone(board: Board, task: RunTask, ended: bool): Board {
    if ended then board.(done := board.done + {task}) else board
  }

  /** What a task step's effect keeps: who the task is, and whether it was asked to stop. */
  ghost predicate Continues(task: Task, effect: Effect) {
    && SameIdentity(task, effect.task) && effect.task.cancelRequested == task.cancelRequested
    && "assistant_id" !in PayloadsOf(effect.registered)
  }

  lemma {:induction false} PayloadKeys(interrupts: seq<Interrupt>)
    requires forall i <- interrupts :: i.id != "assistant_id"
    ensures "assistant_id" !in PayloadsOf(interrupts)
  {
    if interrupts != [] {
      PayloadKeys(interrupts[..|interrupts| - 1]);
    }
  }

  lemma {:induction false} StepContinues(t: Thread, step: Step)
    requires TaskStep(step) && Enabled(t, step)
    ensures Live(t, step.k) && Continues(t.tasks[step.k], EffectOf(t, step))
    ensures Next(t, step) == Taken(t, step.k, EffectOf(t, step))
  {
    TaskStepIsEffect(t, step);
    if step.EndOfStream? { PayloadKeys(Outcome(t.tasks[step.k], step.fallback)); }
  }

  lemma {:induction false} TakenSlot(t: Thread, k: nat, effect: Effect)
    requires SlotInv(t) && Live(t, k)
    ensures SlotInv(Taken(t, k, effect)) && Taken(t, k, effect).active == t.active
  {
    PublishSlot(if effect.registered == [] then t
                else t.(pending := Some(Pending(t.tasks[k].assistant, PayloadsOf(effect.registered)))),
                k, effect.task, effect.events);
  }

  lemma {:induction false} AdvancedAgrees(id: ThreadId, e: Entry, board: Board, record: ActiveRun, k: nat, effect: Effect)
    requires Agrees(id, e, board) && Recorded(e, record, k) && Live(e.thread, k)
    requires Continues(e.thread.tasks[k], effect)
    ensures Agrees(id, Advanced(e, record, k, effect), WithDone(board, record.task, effect.task.Done()))
    ensures record.threadId == id && record.task.threadId == id && record.task in board.known
  {
    assert Stands(id, k, record, e.thread.tasks[k], board);
    TakenSlot(e.thread, k, effect);
    RecordsReplaced(id, e.thread.tasks, e.records, board, k, effect.task, WithDone(board, record.task, effect.task.Done()));
  }

  /** The start a response makes, once it has accepted the interrupt id. */
  ghost function Resumption(t: Thread, assistant: string): Start {
    Start(assistant, false, if t.pending.Some? then Some(|t.tasks|) else None, NO_PARAMS)
  }

  /** The value under the reserved key. */
  function AssistantOf(pending: map<string, Json>): string {
    if "assistant_id" in pending && pending["assistant_id"].Str? then pending["assistant_id"].text else ""
  }

  // --------------------------------------------- the books after each of them

  ghost function AfterBegin(b: Books, reserved: ActiveRun, start: Start): Books
    requires Total(b)
  {
    Put(b, reserved.threadId, Begun(EntryOf(b, reserved.threadId), reserved, start), b.suspended + {reserved}, b.board)
  }

  lemma {:induction false} BeginInOrder(b: Books, reserved: ActiveRun, start: Start)
    requires InOrder(b) && !Busy(b.threads[reserved.threadId])
    requires reserved.task == null && reserved.assistantId == start.assistant
    ensures InOrder(AfterBegin(b, reserved, start))
  {
    var e := EntryOf(b, reserved.threadId);
    assert Agrees(reserved.threadId, e, b.board);
    BegunAgrees(reserved.threadId, e, b.board, reserved, start);
    forall r | r in b.suspended ensures r.threadId != reserved.threadId {
      SuspendedHolder(b, r);
    }
    PutInOrder(b, reserved.threadId, Begun(e, reserved, start), b.suspended + {reserved}, b.board);
  }

  /** A start stops being suspended. */
  lemma {:induction false} Leaving(b: Books, reserved: ActiveRun, e: Entry, board: Board)
    requires InOrder(b) && reserved in b.suspended
    requires Agrees(reserved.threadId, e, board) && SameTasksElsewhere(b.board, board, reserved.threadId)
    ensures InOrder(Put(b, reserved.threadId, e, b.suspended - {reserved}, board))
  {
    SuspendedHolder(b, reserved);
    forall r | r in b.suspended - {reserved} ensures r.threadId != reserved.threadId {
      SuspendedHolder(b, r);
    }
    PutInOrder(b, reserved.threadId, e, b.suspended - {reserved}, board);
  }

  ghost function AfterRelease(b: Books, reserved: ActiveRun): Books
    requires Total(b)
  {
    Put(b, reserved.threadId, Released(EntryOf(b, reserved.threadId), reserved), b.suspended - {reserved}, b.board)
  }

  lemma {:induction false} ReleaseInOrder(b: Books, reserved: ActiveRun)
    requires InOrder(b) && reserved in b.suspended
    ensures InOrder(AfterRelease(b, reserved)) && Get(b.active, reserved.threadId) == Some(reserved)
  {
    SuspendedHolder(b, reserved);
    ReleasedAgrees(reserved.threadId, EntryOf(b, reserved.threadId), b.board, reserved);
    Leaving(b, reserved, Released(EntryOf(b, reserved.threadId), reserved), b.board);
  }

  /** The start was cancelled while its graph resolved, or raised after it had: no dictionary changes. */
  ghost function AfterAbandon(b: Books, reserved: ActiveRun): Books
    requires Total(b)
  {
    var e := EntryOf(b, reserved.threadId);
    Put(b, reserved.threadId, e.(thread := Runs.Abandon(e.thread, reserved.runId)), b.suspended - {reserved}, b.board)
  }

  lemma {:induction false} AbandonInOrder(b: Books, reserved: ActiveRun)
    requires InOrder(b) && reserved in b.suspended
    ensures InOrder(AfterAbandon(b, reserved))
  {
    var e := EntryOf(b, reserved.threadId);
    SuspendedHolder(b, reserved);
    OnlyReservation(e.thread, reserved.runId);
    AbandonSlot(e.thread, reserved.runId);
    Leaving(b, reserved, e.(thread := Runs.Abandon(e.thread, reserved.runId)), b.board);
  }

  ghost function AfterDispatch(b: Books, reserved: ActiveRun, record: ActiveRun): Books
    requires Total(b) && reserved.runId in b.threads[reserved.threadId].resolving && record.task != null
  {
    Put(b, reserved.threadId, Dispatched(EntryOf(b, reserved.threadId), reserved, record),
        b.suspended - {reserved}, WithTask(b.board, record.task))
  }

  lemma {:induction false} DispatchInOrder(b: Books, reserved: ActiveRun, record: ActiveRun)
    requires InOrder(b) && reserved in b.suspended
    requires NewRecord(reserved.threadId, EntryOf(b, reserved.threadId), b.board, reserved, record)
    ensures reserved.runId in b.threads[reserved.threadId].resolving
    ensures InOrder(AfterDispatch(b, reserved, record))
    ensures var b' := AfterDispatch(b, reserved, record);
      && b'.active == b.active[reserved.threadId := record]
      && b'.pendingInputs == b.pendingInputs - {reserved.threadId}
      && b'.lastAssistant == b.lastAssistant[reserved.threadId := reserved.assistantId]
      && b'.board == WithTask(b.board, record.task)
  {
    var e := EntryOf(b, reserved.threadId);
    SuspendedHolder(b, reserved);
    DispatchedAgrees(reserved.threadId, e, b.board, reserved, record);
    Leaving(b, reserved, Dispatched(e, reserved, record), WithTask(b.board, record.task));
  }

  ghost function AfterCallback(b: Books, id: ThreadId, record: ActiveRun, k: nat): Books
    requires Total(b)
  {
    Put(b, id, Cleared(EntryOf(b, id), record, k), b.suspended, b.board)
  }

  lemma {:induction false} CallbackInOrder(b: Books, id: ThreadId, record: ActiveRun, k: nat)
    requires InOrder(b) && Recorded(EntryOf(b, id), record, k) && k in b.threads[id].callbacks
    ensures InOrder(AfterCallback(b, id, record, k))
  {
    var e := EntryOf(b, id);
    assert Agrees(id, e, b.board);
    ClearedAgrees(id, e, b.board, record, k);
    forall r | r in b.suspended && r.threadId == id ensures Holds(r, Cleared(e, record, k)) {
      SuspendedHolder(b, r);
    }
    PutInOrder(b, id, Cleared(e, record, k), b.suspended, b.board);
  }

  ghost function AfterCancel(b: Books, id: ThreadId, task: RunTask, target: Option<RunId>): Books
    requires Total(b)
  {
    Put(b, id, EntryOf(b, id).(thread := Request(b.threads[id], target)), b.suspended, WithCancel(b.board, task))
  }

  lemma {:induction false} CancelInOrder(b: Books, id: ThreadId, record: ActiveRun, target: Option<RunId>)
    requires InOrder(b) && Reaches(b.threads[id], target) && Get(b.active, id) == Some(record)
    ensures record.task != null && record.task in b.board.known
    ensures InOrder(AfterCancel(b, id, record.task, target))
  {
    var e := EntryOf(b, id);
    assert Agrees(id, e, b.board);
    CancelledAgrees(id, e, b.board, record, target);
    forall r | r in b.suspended && r.threadId == id ensures false {
      SuspendedHolder(b, r);
    }
    PutInOrder(b, id, e.(thread := Request(b.threads[id], target)), b.suspended, WithCancel(b.board, record.task));
  }

  ghost function AfterAdvance(b: Books, id: ThreadId, record: ActiveRun, k: nat, effect: Effect): Books
    requires Total(b) && k < |b.threads[id].tasks| && record.task != null
  {
    Put(b, id, Advanced(EntryOf(b, id), record, k, effect), b.suspended, WithDone(b.board, record.task, effect.task.Done()))
  }

  lemma {:induction false} AdvanceInOrder(b: Books, id: ThreadId, record: ActiveRun, k: nat, effect: Effect)
    requires InOrder(b) && Recorded(EntryOf(b, id), record, k) && Live(b.threads[id], k)
    requires Continues(b.threads[id].tasks[k], effect)
    ensures InOrder(AfterAdvance(b, id, record, k, effect))
    ensures record.threadId == id && record.task in b.board.known
    ensures var b' := AfterAdvance(b, id, record, k, effect);
      && b'.active == b.active && b'.lastAssistant == b.lastAssistant
      && b'.pendingInputs == (if effect.registered == [] then b.pendingInputs
                              else b.pendingInputs[id := Encoded(Pending(record.assistantId, PayloadsOf(effect.registered)))])
      && b'.board == WithDone(b.board, record.task, effect.task.Done())
  {
    var e := EntryOf(b, id);
    assert Agrees(id, e, b.board);
    SetToItself(b.active, id);
    SetToItself(b.pendingInputs, id);
    SetToItself(b.lastAssistant, id);
    AdvancedAgrees(id, e, b.board, record, k, effect);
    forall r | r in b.suspended && r.threadId == id ensures false {
      SuspendedHolder(b, r);
      LiveIsLast(e.thread, k);
    }
    PutInOrder(b, id, Advanced(e, record, k, effect), b.suspended, WithDone(b.board, record.task, effect.task.Done()));
  }

  // -------------------------------------------------------------- the manager

  class RunManager {
    var active: map<ThreadId, ActiveRun>
    var pendingInputs: map<ThreadId, map<string, Json>>
    var lastAssistant: map<ThreadId, string>
    ghost var books: Books

    ghost predicate Valid()
      reads this, books.board.known
    {
      && active == books.active && pendingInputs == books.pendingInputs && lastAssistant == books.lastAssistant
      && InOrder(books)
      && forall task <- books.board.known ::
           task.done == (task in books.board.done) && task.cancelRequested == (task in books.board.cancelling)
    }

    /** A new manager, whatever assistants the thread store holds. */
    constructor (ghost loads: Loads, ghost stored: ThreadId -> Option<string>)
      ensures Valid() && books == NewBooks(loads, stored)
      ensures active == map[] && pendingInputs == map[] && lastAssistant == map[]
    {
      NewBooksInOrder(loads, stored);
      active, pendingInputs, lastAssistant := map[], map[], map[];
      books := NewBooks(loads, stored);
    }

    /** The run holding a busy thread. */
    method BusyWith(id: ThreadId) returns (holder: Option<RunId>)
      requires Valid()
      ensures holder.Some? <==> Busy(books.threads[id])
      ensures holder.Some? ==> id in active && holder == Some(active[id].runId)
    {
      ghost var e := EntryOf(books, id);
      assert Agrees(id, e, books.board);
      if id in active {
        var existing := active[id];
        assert e.holder == Some(existing);
        ReachesHolder(id, e, books.board, None);
        if existing.task == null || !existing.task.done {
          return Some(existing.runId);
        }
      }
      return None;
    }

    /** The synchronous part of `start`: check, then reserve. */
    method Begin(id: ThreadId, runId: RunId, assistantId: string, ghost start: Start) returns (result: StartResult)
      requires Valid() && runId !in books.threads[id].used && start.assistant == assistantId
      modifies this
      ensures Valid()
      ensures result.Held? <==> !Busy(old(books).threads[id])
      ensures result.Held? ==>
                && fresh(result.record) && result.record.runId == runId && result.record.threadId == id
                && books == AfterBegin(old(books), result.record, start)
      ensures result.Rejected? ==>
                books == old(books) && id in active && result.error == RunActive(active[id].runId)
    {
      var busy := BusyWith(id);
      if busy.Some? {
        return Rejected(RunActive(busy.value));
      }
      var reserved := new ActiveRun(runId, id, assistantId, null);
      Reserve(reserved, start);
      result := Held(reserved);
    }

    method Reserve(reserved: ActiveRun, ghost start: Start)
      requires Valid() && !Busy(books.threads[reserved.threadId])
      requires reserved.task == null && reserved.assistantId == start.assistant
      modifies this
      ensures Valid() && books == AfterBegin(old(books), reserved, start)
    {
      BeginInOrder(books, reserved, start);
      SetToItself(pendingInputs, reserved.threadId);
      SetToItself(lastAssistant, reserved.threadId);
      active := active[reserved.threadId := reserved];
      books := AfterBegin(books, reserved, start);
    }

    /** `resolve` raised: the slot is released if it is still this reservation's; pending inputs stay. */
    method ReleaseFailed(reserved: ActiveRun)
      requires Valid() && reserved in books.suspended
      modifies this
      ensures Valid() && books == AfterRelease(old(books), reserved)
    {
      ReleaseInOrder(books, reserved);
      SetToItself(pendingInputs, reserved.threadId);
      SetToItself(lastAssistant, reserved.threadId);
      books := AfterRelease(books, reserved);
      if reserved.threadId in active && active[reserved.threadId] == reserved {
        active := active - {reserved.threadId};
      }
    }

    /** Leaving `start` where no handler applies: `except Exception` sees no cancellation, and nothing after it. */
    method LeaveAbandoned(reserved: ActiveRun)
      requires Valid() && reserved in books.suspended
      modifies this`books
      ensures Valid() && books == AfterAbandon(old(books), reserved)
    {
      AbandonInOrder(books, reserved);
      SetToItself(active, reserved.threadId);
      SetToItself(pendingInputs, reserved.threadId);
      SetToItself(lastAssistant, reserved.threadId);
      books := AfterAbandon(books, reserved);
    }

    method CreateTask(reserved: ActiveRun) returns (record: ActiveRun)
      requires Valid()
      ensures Valid() && fresh(record) && fresh(record.task) && !record.task.done && !record.task.cancelRequested
      ensures NewRecord(reserved.threadId, EntryOf(books, reserved.threadId), books.board, reserved, record)
    {
      var task := new RunTask(reserved.threadId, |books.threads[reserved.threadId].tasks|);
      record := new ActiveRun(reserved.runId, reserved.threadId, reserved.assistantId, task);
    }

    /**
     The rest of `start` once the graph is there, outside the handler that
     releases the slot: when the config cannot be built it raises (None), and the
     reservation stays.
     */
    method Proceed(reserved: ActiveRun, params: Params) returns (record: Option<ActiveRun>)
      requires Valid() && reserved in books.suspended
      requires reserved.runId in books.threads[reserved.threadId].resolving
      requires params == books.threads[reserved.threadId].resolving[reserved.runId].params
      modifies this
      ensures Valid()
      ensures record.Some? <==> Mergeable(params)
      ensures record.None? ==> books == AfterAbandon(old(books), reserved)
      ensures record.Some? ==> record.value.task != null && fresh(record.value)
                               && books == AfterDispatch(old(books), reserved, record.value)
    {
      var config := ConfigFor(reserved.threadId, params);
      RaisesIffNotMergeable(reserved.threadId, params);
      if config.None? {
        LeaveAbandoned(reserved);
        return None;
      }
      var dispatched := Dispatch(reserved);
      record := Some(dispatched);
    }

    /** A fresh run: pending inputs are consumed and a task takes the slot. */
    method Dispatch(reserved: ActiveRun) returns (record: ActiveRun)
      requires Valid() && reserved in books.suspended
      modifies this
      ensures Valid() && fresh(record) && record.task != null && fresh(record.task)
      ensures reserved.runId in old(books).threads[reserved.threadId].resolving
      ensures books == AfterDispatch(old(books), reserved, record)
    {
      record := CreateTask(reserved);
      DispatchInOrder(books, reserved, record);
      books := AfterDispatch(books, reserved, record);
      pendingInputs := pendingInputs - {reserved.threadId};
      lastAssistant := lastAssistant[reserved.threadId := reserved.assistantId];
      active := active[reserved.threadId := record];
    }

    /** The done-callback of a task: it frees the slot only if the slot is still its own. */
    method Clear(id: ThreadId, record: ActiveRun, ghost k: nat)
      requires Valid() && Recorded(EntryOf(books, id), record, k) && k in books.threads[id].callbacks
      modifies this
      ensures Valid() && books == AfterCallback(old(books), id, record, k)
    {
      CallbackInOrder(books, id, record, k);
      SetToItself(active, id);
      SetToItself(pendingInputs, id);
      SetToItself(lastAssistant, id);
      books := AfterCallback(books, id, record, k);
      if id in active && active[id] == record {
        active := active - {id};
      }
    }

    /** The assistant `respond` resumes with, if it accepts the interrupt id. */
    method ResumeTarget(id: ThreadId, interruptId: string, assistantArg: Option<string>)
      returns (assistant: Option<string>)
      requires Valid()
      ensures assistant == ResumeWith(books.threads[id], interruptId, assistantArg)
    {
      assert Agrees(id, EntryOf(books, id), books.board);
      if id in pendingInputs && interruptId in pendingInputs[id] {
        assistant := if Truthy(assistantArg) then assistantArg else Some(AssistantOf(pendingInputs[id]));
      } else if id !in pendingInputs && Truthy(assistantArg) {
        assistant := assistantArg;
      } else {
        assistant := None;
      }
    }

    /** The synchronous part of `respond`. */
    method Respond(id: ThreadId, runId: RunId, interruptId: string, assistantArg: Option<string>)
      returns (result: StartResult)
      requires Valid() && runId !in books.threads[id].used
      modifies this
      ensures Valid()
      ensures var t := old(books).threads[id]; var target := ResumeWith(t, interruptId, assistantArg);
        && (result.Held? <==> target.Some? && !Busy(t))
        && (result.Held? ==>
              && fresh(result.record) && result.record.runId == runId && result.record.threadId == id
              && books == AfterBegin(old(books), result.record, Resumption(t, target.value)))
        && (result.Rejected? ==> books == old(books) && (result.error.UnknownInterrupt? <==> target.None?))
    {
      var target := ResumeTarget(id, interruptId, assistantArg);
      if target.None? {
        return Rejected(UnknownInterrupt);
      }
      result := Begin(id, runId, target.value, Resumption(books.threads[id], target.value));
    }

    /** `cancel`: asks the task in the slot to stop, if the run id given is its own. */
    method Cancel(id: ThreadId, runId: Option<RunId>) returns (asked: bool)
      requires Valid()
      modifies this`books, books.board.known
      ensures Valid()
      ensures books == if Reaches(old(books).threads[id], runId) && id in active && active[id].task != null
                       then AfterCancel(old(books), id, active[id].task, runId) else old(books)
      ensures Reaches(old(books).threads[id], runId) ==> asked
      ensures asked <==> id in active && active[id].task != null && (runId.None? || runId.value == active[id].runId)
    {
      ghost var e := EntryOf(books, id);
      assert Agrees(id, e, books.board);
      ReachesHolder(id, e, books.board, runId);
      if id !in active || active[id].task == null {
        return false;
      }
      var record := active[id];
      assert e.holder == Some(record);
      if runId.Some? && record.runId != runId.value {
        return false;
      }
      asked := true;
      CancelTask(id, record, runId);
    }

    method CancelTask(id: ThreadId, record: ActiveRun, ghost target: Option<RunId>)
      requires Valid() && Get(active, id) == Some(record) && record.task != null && record.task in books.board.known
      requires Reaches(books.threads[id], target) <==> record.task !in books.board.done
      modifies this`books, record.task
      ensures Valid()
      ensures books == if Reaches(old(books).threads[id], target)
                       then AfterCancel(old(books), id, record.task, target) else old(books)
    {
      if Reaches(books.threads[id], target) {
        CancelInOrder(books, id, record, target);
        SetToItself(active, id);
        SetToItself(pendingInputs, id);
        SetToItself(lastAssistant, id);
      }
      ghost var b' := if Reaches(books.threads[id], target) then AfterCancel(books, id, record.task, target) else books;
      record.task.Cancel();
      books := b';
    }

    /** `_register_pending`: the assistant under its reserved key, then each interrupt in turn. */
    method RegisterPending(id: ThreadId, assistantId: string, interrupts: seq<Interrupt>)
      modifies this`pendingInputs
      ensures pendingInputs == old(pendingInputs)[id := Encoded(Pending(assistantId, PayloadsOf(interrupts)))]
    {
      var pending := map["assistant_id" := Str(assistantId)];
      for n := 0 to |interrupts|
        invariant pending == Encoded(Pending(assistantId, PayloadsOf(interrupts[..n])))
      {
        assert interrupts[..n + 1][..n] == interrupts[..n];
        pending := pending[interrupts[n].id := interrupts[n].payload];
      }
      assert interrupts[..|interrupts|] == interrupts;
      pendingInputs := pendingInputs[id := pending];
    }

    /**
     The manager's part of a step of a run's task: interrupts the run ended with
     are registered, and the event loop marks an ended task done. What the step
     publishes is in `Execution`.
     */
    method Advance(id: ThreadId, record: ActiveRun, ghost step: Step, interrupts: seq<Interrupt>, ended: bool)
      requires Valid() && TaskStep(step) && Enabled(books.threads[id], step)
      requires Recorded(EntryOf(books, id), record, step.k)
      requires interrupts == EffectOf(books.threads[id], step).registered
      requires ended == EffectOf(books.threads[id], step).task.Done()
      modifies this, books.board.known
      ensures Valid()
      ensures books == AfterAdvance(old(books), id, record, step.k, EffectOf(old(books).threads[id], step))
      ensures books.threads == old(books).threads[id := Next(old(books).threads[id], step)]
    {
      StepContinues(books.threads[id], step);
      TakeEffect(id, record, step.k, EffectOf(books.threads[id], step), interrupts, ended);
    }

    method TakeEffect(id: ThreadId, record: ActiveRun, ghost k: nat, ghost effect: Effect, interrupts: seq<Interrupt>, ended: bool)
      requires Valid() && Recorded(EntryOf(books, id), record, k) && Live(books.threads[id], k)
      requires Continues(books.threads[id].tasks[k], effect)
      requires interrupts == effect.registered && ended == effect.task.Done()
      modifies this, books.board.known
      ensures Valid() && books == AfterAdvance(old(books), id, record, k, effect)
    {
      AdvanceInOrder(books, id, record, k, effect);
      ghost var b' := AfterAdvance(books, id, record, k, effect);
      assert b'.board == WithDone(books.board, record.task, ended);
      if interrupts != [] {
        RegisterPending(id, record.assistantId, interrupts);
      }
      MarkDone(record.task, ended, b');
    }

    /** The event loop marks an ended task done; the books become `b'`. */
    method MarkDone(task: RunTask, ended: bool, ghost b': Books)
      requires task in books.board.known && InOrder(b') && b'.board == WithDone(books.board, task, ended)
      requires active == b'.active && pendingInputs == b'.pendingInputs && lastAssistant == b'.lastAssistant
      requires forall other <- books.board.known ::
        other.done == (other in books.board.done) && other.cancelRequested == (other in books.board.cancelling)
      modifies this`books, task`done
      ensures Valid() && books == b'
    {
      if ended {
        task.done := true;
      }
      books := b';
    }
  }
}
