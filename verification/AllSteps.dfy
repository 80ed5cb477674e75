/**
 The process can take every step its threads can: what a thread of its own would
 do next is, with the objects it handles, a step the shared dictionaries allow.
 */
module AllSteps {
  import opened Options
  import opened Json
  import opened Translation
  import opened RunConfigs
  import opened Runs
  import opened RunInvariants
  import opened RunGuarantees
  import opened RunManagement
  import opened EndToEnd
  import opened Threads

  /** A thread's suspended start is one of the process's, and holds the thread's slot. */
  ghost predicate Backed(id: ThreadId, e: Entry, suspended: set<ActiveRun>) {
    e.thread.resolving != map[] ==> e.holder.Some? && e.holder.value in suspended && e.holder.value.threadId == id
  }

  ghost predicate AllBacked(b: Books)
    requires Total(b)
  {
    forall id: ThreadId :: Backed(id, EntryOf(b, id), b.suspended)
  }

  lemma {:induction false} PutBacked(b: Books, id: ThreadId, e: Entry, suspended: set<ActiveRun>, board: Board)
    requires Total(b) && AllBacked(b) && Backed(id, e, suspended)
    requires forall r <- b.suspended :: r.threadId != id ==> r in suspended
    ensures Total(Put(b, id, e, suspended, board)) && AllBacked(Put(b, id, e, suspended, board))
  {
    PutEntries(b, id, e, suspended, board);
    forall other: ThreadId ensures Backed(other, EntryOf(Put(b, id, e, suspended, board), other), suspended) {
      assert Backed(other, EntryOf(b, other), b.suspended);
    }
  }

  lemma {:induction false} BeginBacked(b: Books, reserved: ActiveRun, command: Step)
    requires InOrder(b) && AllBacked(b) && MayBegin(b, reserved, command)
    ensures Total(BooksAfter(b, Begin(reserved, command))) && AllBacked(BooksAfter(b, Begin(reserved, command)))
  {
    var e := EntryOf(b, reserved.threadId);
    PutBacked(b, reserved.threadId, Begun(e, reserved, StartFor(e, command).value), b.suspended + {reserved}, b.board);
  }

  /** A start that ends was the only one suspended on its thread. */
  lemma {:induction false} OnlySuspended(b: Books, reserved: ActiveRun)
    requires InOrder(b) && reserved in b.suspended
    ensures reserved.runId in b.threads[reserved.threadId].resolving
    ensures Without(b.threads[reserved.threadId].resolving, reserved.runId) == map[]
  {
    SuspendedHolder(b, reserved);
    OnlyReservation(b.threads[reserved.threadId], reserved.runId);
  }

  lemma {:induction false} LeavingBacked(b: Books, reserved: ActiveRun, e: Entry, board: Board)
    requires InOrder(b) && AllBacked(b) && reserved in b.suspended && e.thread.resolving == map[]
    ensures var b' := Put(b, reserved.threadId, e, b.suspended - {reserved}, board); Total(b') && AllBacked(b')
  {
    PutBacked(b, reserved.threadId, e, b.suspended - {reserved}, board);
  }

  lemma {:induction false} EndingBacked(b: Books, op: Op)
    requires InOrder(b) && AllBacked(b) && Possible(b, op)
    requires op.Dispatch? || op.Release? || op.Raise? || op.Abandon?
    ensures Total(BooksAfter(b, op)) && AllBacked(BooksAfter(b, op))
  {
    OnlySuspended(b, op.reserved);
    var e := EntryOf(b, op.reserved.threadId);
    if op.Dispatch? {
      LeavingBacked(b, op.reserved, Dispatched(e, op.reserved, op.record), WithTask(b.board, op.record.task));
    } else if op.Release? {
      LeavingBacked(b, op.reserved, Released(e, op.reserved), b.board);
    } else {
      LeavingBacked(b, op.reserved, e.(thread := Runs.Abandon(e.thread, op.reserved.runId)), b.board);
    }
  }

  lemma {:induction false} AdvancedBacked(b: Books, id: ThreadId, record: ActiveRun, k: nat, effect: Effect)
    requires Total(b) && AllBacked(b) && record.task != null
    requires k < |b.threads[id].tasks| && b.threads[id].resolving == map[]
    ensures Total(AfterAdvance(b, id, record, k, effect)) && AllBacked(AfterAdvance(b, id, record, k, effect))
  {
    PutBacked(b, id, Advanced(EntryOf(b, id), record, k, effect), b.suspended,
              WithDone(b.board, record.task, effect.task.Done()));
  }

  lemma {:induction false} AdvanceBacked(b: Books, id: ThreadId, record: ActiveRun, step: Step)
    requires InOrder(b) && AllBacked(b) && Possible(b, Advance(id, record, step))
    ensures Total(BooksAfter(b, Advance(id, record, step))) && AllBacked(BooksAfter(b, Advance(id, record, step)))
  {
    var e, effect := EntryOf(b, id), EffectOf(b.threads[id], step);
    assert Agrees(id, e, b.board);
    StepContinues(e.thread, step);
    LiveIsLast(e.thread, step.k);
    AdvancedBacked(b, id, record, step.k, effect);
  }

  lemma {:induction false} CallbackBacked(b: Books, id: ThreadId, record: ActiveRun, k: nat)
    requires InOrder(b) && AllBacked(b) && Possible(b, Callback(id, record, k))
    ensures Total(BooksAfter(b, Callback(id, record, k))) && AllBacked(BooksAfter(b, Callback(id, record, k)))
  {
    var e := EntryOf(b, id);
    assert Backed(id, e, b.suspended);
    if e.thread.resolving != map[] { assert Holds(e.holder.value, EntryOf(b, id)); }
    PutBacked(b, id, Cleared(e, record, k), b.suspended, b.board);
  }

  lemma {:induction false} StopBacked(b: Books, id: ThreadId, target: Option<RunId>)
    requires InOrder(b) && AllBacked(b) && Possible(b, Stop(id, target))
    ensures Total(BooksAfter(b, Stop(id, target))) && AllBacked(BooksAfter(b, Stop(id, target)))
  {
    var e := EntryOf(b, id).(thread := Request(b.threads[id], target));
    assert Backed(id, EntryOf(b, id), b.suspended);
    PutBacked(b, id, e, b.suspended, WithCancel(b.board, b.active[id].task));
  }

  lemma {:induction false} StepBacked(b: Books, op: Op)
    requires InOrder(b) && AllBacked(b) && Possible(b, op)
    ensures Total(BooksAfter(b, op)) && AllBacked(BooksAfter(b, op))
  {
    match op
    case Begin(reserved, command) => BeginBacked(b, reserved, command);
    case Advance(id, record, step) => AdvanceBacked(b, id, record, step);
    case Callback(id, record, k) => CallbackBacked(b, id, record, k);
    case Stop(id, target) => StopBacked(b, id, target);
    case Visit(_, _) =>
    case _ => EndingBacked(b, op);
  }

  lemma {:induction false} HistoryBacked(size: nat, loads: Loads, stored: ThreadId -> Option<string>, ops: seq<Op>)
    ensures InOrder(AfterAll(size, loads, stored, ops).books) && AllBacked(AfterAll(size, loads, stored, ops).books)
  {
    Independent(size, loads, stored, ops, "");
    if ops != [] {
      var init, op := ops[..|ops| - 1], ops[|ops| - 1];
      HistoryBacked(size, loads, stored, init);
      var b := AfterAll(size, loads, stored, init).books;
      if Possible(b, op) { StepBacked(b, op); }
    }
  }

  // ------------------------------------------------------ the step that is possible

  predicate Starts(step: Step) { step.StartRun? || step.Respond? || step.RouterRespond? }

  /**
   The object a step makes, if it makes one: a reservation for a start or
   response, a record with a task of its own when a start is dispatched.
   */
  ghost predicate Suits(b: Books, id: ThreadId, step: Step, made: ActiveRun)
    requires Total(b)
  {
    && (Starts(step) ==>
          var t' := Next(b.threads[id], step);
          && made.task == null && made.threadId == id && made.runId == step.run
          && step.run in t'.resolving && made.assistantId == t'.resolving[step.run].assistant)
    && (step.Resolved? ==>
          id in b.active && NewRecord(id, EntryOf(b, id), b.board, b.active[id], made))
  }

  ghost predicate Offers(b: Books, id: ThreadId, step: Step, op: Op)
    requires Total(b)
  {
    Possible(b, op) && ThreadOf(op) == id && ActionOf(op) == Run(step)
  }

  lemma {:induction false} FreeToStart(b: Books, id: ThreadId, step: Step)
    requires InOrder(b) && Starts(step) && Next(b.threads[id], step) != b.threads[id]
    ensures !Occupies(EntryOf(b, id), b.board)
  {
    var e := EntryOf(b, id);
    assert Agrees(id, e, b.board);
    OccupiesIsBusy(id, e, b.board);
  }

  /** What the dictionaries decide on is what the thread reserves. */
  lemma {:induction false} DecidesAsThread(id: ThreadId, e: Entry, board: Board, step: Step)
    requires Agrees(id, e, board) && Starts(step) && Runs.Enabled(e.thread, step) && Next(e.thread, step) != e.thread
    ensures StartFor(e, step).Some?
    ensures step.run in Next(e.thread, step).resolving
    ensures Next(e.thread, step).resolving[step.run].assistant == StartFor(e, step).value.assistant
  {
    match step
    case StartRun(_, _, _, _) =>
    case Respond(_, interrupt, arg) => ResumeFromIsModel(e, interrupt, arg);
    case RouterRespond(_, interrupt, _) => ResumeFromIsModel(e, interrupt, e.thread.stored);
  }

  lemma {:induction false} OffersStart(b: Books, id: ThreadId, step: Step, made: ActiveRun)
    requires InOrder(b) && Starts(step) && Runs.Enabled(b.threads[id], step)
    requires Next(b.threads[id], step) != b.threads[id] && Suits(b, id, step, made)
    ensures Offers(b, id, step, Begin(made, step))
  {
    assert Agrees(id, EntryOf(b, id), b.board);
    FreeToStart(b, id, step);
    DecidesAsThread(id, EntryOf(b, id), b.board, step);
  }

  lemma {:induction false} SuspendedIs(b: Books, id: ThreadId, run: RunId)
    requires InOrder(b) && AllBacked(b) && run in b.threads[id].resolving
    ensures id in b.active && b.active[id] in b.suspended && b.active[id].threadId == id && b.active[id].runId == run
  {
    var e := EntryOf(b, id);
    assert Backed(id, e, b.suspended) && Agrees(id, e, b.board);
    OnlyReservation(e.thread, run);
  }

  lemma {:induction false} OffersDispatch(b: Books, id: ThreadId, run: RunId, made: ActiveRun)
    requires InOrder(b) && AllBacked(b) && Runs.Enabled(b.threads[id], Resolved(run)) && Suits(b, id, Resolved(run), made)
    ensures id in b.active && Offers(b, id, Resolved(run), Dispatch(b.active[id], made))
  {
    SuspendedIs(b, id, run);
    RaisesIffNotMergeable(id, b.threads[id].resolving[run].params);
  }

  lemma {:induction false} OffersRaise(b: Books, id: ThreadId, run: RunId)
    requires InOrder(b) && AllBacked(b) && Runs.Enabled(b.threads[id], MergeRaised(run))
    ensures id in b.active && Offers(b, id, MergeRaised(run), Raise(b.active[id]))
  {
    SuspendedIs(b, id, run);
    RaisesIffNotMergeable(id, b.threads[id].resolving[run].params);
  }

  lemma {:induction false} OffersLeaving(b: Books, id: ThreadId, run: RunId)
    requires InOrder(b) && AllBacked(b) && run in b.threads[id].resolving
    ensures id in b.active
    ensures Offers(b, id, ResolveFailed(run), Release(b.active[id]))
    ensures Offers(b, id, StartCancelled(run), Abandon(b.active[id]))
  {
    SuspendedIs(b, id, run);
  }

  lemma {:induction false} OffersEnding(b: Books, id: ThreadId, step: Step, made: ActiveRun) returns (op: Op)
    requires InOrder(b) && AllBacked(b) && Runs.Enabled(b.threads[id], step) && Suits(b, id, step, made)
    requires step.Resolved? || step.MergeRaised? || step.ResolveFailed? || step.StartCancelled?
    ensures Offers(b, id, step, op)
  {
    match step {
      case Resolved(run) =>
        OffersDispatch(b, id, run, made);
        op := Dispatch(b.active[id], made);
      case MergeRaised(run) =>
        OffersRaise(b, id, run);
        op := Raise(b.active[id]);
      case ResolveFailed(run) =>
        OffersLeaving(b, id, run);
        op := Release(b.active[id]);
      case StartCancelled(run) =>
        OffersLeaving(b, id, run);
        op := Abandon(b.active[id]);
    }
  }

  /** A task has the record of its place. */
  lemma {:induction false} TaskIsRecorded(b: Books, id: ThreadId, k: nat)
    requires InOrder(b) && k < |b.threads[id].tasks|
    ensures k < |b.records[id]| && Recorded(EntryOf(b, id), b.records[id][k], k)
  {
    var e := EntryOf(b, id);
    assert Agrees(id, e, b.board);
    assert Stands(id, k, e.records[k], e.thread.tasks[k], b.board);
  }

  lemma {:induction false} OffersTask(b: Books, id: ThreadId, step: Step) returns (op: Op)
    requires InOrder(b) && TaskStep(step) && Runs.Enabled(b.threads[id], step)
    ensures Offers(b, id, step, op)
  {
    HasTask(b.threads[id], step);
    TaskIsRecorded(b, id, step.k);
    op := Advance(id, b.records[id][step.k], step);
    assert Possible(b, op);
  }

  lemma {:induction false} HasTask(t: Thread, step: Step)
    requires TaskStep(step) && Runs.Enabled(t, step)
    ensures step.k < |t.tasks|
  {
  }

  lemma {:induction false} OffersCallback(b: Books, id: ThreadId, k: nat) returns (op: Op)
    requires InOrder(b) && k in b.threads[id].callbacks
    ensures Offers(b, id, DoneCallback(k), op)
  {
    assert Agrees(id, EntryOf(b, id), b.board);
    TaskIsRecorded(b, id, k);
    op := Callback(id, b.records[id][k], k);
  }

  lemma {:induction false} OffersStop(b: Books, id: ThreadId, target: Option<RunId>)
    requires InOrder(b) && Next(b.threads[id], Cancel(target)) != b.threads[id]
    ensures Offers(b, id, Cancel(target), Stop(id, target))
  {
    assert Agrees(id, EntryOf(b, id), b.board);
    ReachesHolder(id, EntryOf(b, id), b.board, target);
  }

  /**
   After every history of the process, each step by which a thread would change
   is possible, given the object it makes.
   */
  lemma {:induction false} EveryStepIsPossible(
    size: nat, loads: Loads, stored: ThreadId -> Option<string>, ops: seq<Op>, id: ThreadId, step: Step, made: ActiveRun)
    returns (op: Op)
    requires var b := AfterAll(size, loads, stored, ops).books;
             && Runs.Enabled(b.threads[id], step) && Next(b.threads[id], step) != b.threads[id]
             && Suits(b, id, step, made)
    ensures Offers(AfterAll(size, loads, stored, ops).books, id, step, op)
  {
    var b := AfterAll(size, loads, stored, ops).books;
    HistoryBacked(size, loads, stored, ops);
    if Starts(step) {
      OffersStart(b, id, step, made);
      op := Begin(made, step);
    } else if TaskStep(step) {
      op := OffersTask(b, id, step);
    } else if step.DoneCallback? {
      op := OffersCallback(b, id, step.k);
    } else if step.Cancel? {
      OffersStop(b, id, step.target);
      op := Stop(id, step.target);
    } else {
      op := OffersEnding(b, id, step, made);
    }
  }
}
