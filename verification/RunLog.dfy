/**
 The log of a thread as its readers see it: a scanner that knows nothing of
 tasks accepts every reachable log, and the number of terminal events and
 the requested inputs are those of the runs behind it.
 */
module RunLog {
  import opened Options
  import opened Json
  import opened RunConfigs
  import opened Runs
  import opened RunInvariants
  import opened RunGuarantees
  import Resuming

  // ------------------------------------------------------------------ grammar

  /** Where a reader of the log is; after an interruption requests for input may follow. */
  datatype Place = Outside(requesting: bool) | Opened(assistant: string) | Inside(assistant: string)

  function ScanEvent(p: Place, e: Event): Option<Place> {
    match p
    case Outside(requesting) =>
      if e.Lifecycle? && e.status.Started? then Some(Opened(e.assistant))
      else if e.InputRequested? && requesting then Some(p) else None
    case Opened(assistant) =>
      if e == Lifecycle(assistant, Running) then Some(Inside(assistant)) else None
    case Inside(assistant) =>
      if StreamEvent(e) then Some(p)
      else if !e.Lifecycle? || e.assistant != assistant then None
      else if e.status.Interrupted? then Some(Outside(true))
      else if e.status.Completed? || e.status.Failed? then Some(Outside(false)) else None
  }

  function Scan(p: Place, es: seq<Event>): Option<Place> {
    if es == [] then Some(p)
    else match Scan(p, es[..|es| - 1])
      case None => None
      case Some(mid) => ScanEvent(mid, es[|es| - 1])
  }

  lemma {:induction false} ScanConcat(p: Place, es: seq<Event>, more: seq<Event>)
    ensures Scan(p, es + more) == match Scan(p, es) case None => None case Some(mid) => Scan(mid, more)
  {
    if more == [] {
      assert es + more == es;
    } else {
      ScanConcat(p, es, more[..|more| - 1]);
      assert (es + more)[..|es + more| - 1] == es + more[..|more| - 1];
    }
  }

  lemma {:induction false} ScanStream(assistant: string, es: seq<Event>)
    requires forall i :: 0 <= i < |es| ==> StreamEvent(es[i])
    ensures Scan(Inside(assistant), es) == Some(Inside(assistant))
  {
    if es != [] {
      ScanStream(assistant, es[..|es| - 1]);
    }
  }

  lemma {:induction false} ScanRequests(interrupts: seq<Interrupt>)
    ensures Scan(Outside(true), Requests(interrupts)) == Some(Outside(true))
  {
    if interrupts != [] {
      ScanRequests(interrupts[..|interrupts| - 1]);
      assert Requests(interrupts)[..|interrupts| - 1] == Requests(interrupts[..|interrupts| - 1]);
    }
  }

  lemma {:induction false} ScanOne(p: Place, e: Event)
    ensures Scan(p, [e]) == ScanEvent(p, e)
  {
    assert [e][..0] == [];
  }

  lemma {:induction false} ScanOpening(requesting: bool, assistant: string)
    ensures Scan(Outside(requesting), [Lifecycle(assistant, Started), Lifecycle(assistant, Running)])
            == Some(Inside(assistant))
  {
    ScanOne(Outside(requesting), Lifecycle(assistant, Started));
    ScanOne(Opened(assistant), Lifecycle(assistant, Running));
    ScanConcat(Outside(requesting), [Lifecycle(assistant, Started)], [Lifecycle(assistant, Running)]);
    assert [Lifecycle(assistant, Started)] + [Lifecycle(assistant, Running)]
        == [Lifecycle(assistant, Started), Lifecycle(assistant, Running)];
  }

  function AfterClosing(ending: Ending): Place {
    Outside(ending.Cancelled? || ending.AwaitingInput?)
  }

  lemma {:induction false} ScanClosing(assistant: string, ending: Ending)
    ensures Scan(Inside(assistant), Closing(assistant, ending)) == Some(AfterClosing(ending))
  {
    match ending
    case Finished => ScanOne(Inside(assistant), Lifecycle(assistant, Completed));
    case Errored(error) => ScanOne(Inside(assistant), Lifecycle(assistant, Failed(error)));
    case Cancelled => ScanOne(Inside(assistant), Lifecycle(assistant, Interrupted));
    case AwaitingInput(interrupts) =>
      ScanOne(Inside(assistant), Lifecycle(assistant, Interrupted));
      ScanRequests(interrupts);
      ScanConcat(Inside(assistant), [Lifecycle(assistant, Interrupted)], Requests(interrupts));
  }

  /** Where the log stands after a task's block, given where it stood before. */
  function PlaceAfter(task: Task, before: Place): Place {
    match task.stage
    case Created => before
    case NeverRan => before
    case Streaming => Inside(task.assistant)
    case Ended(ending) => AfterClosing(ending)
  }

  lemma {:induction false} ScanUpToBody(p: Place, task: Task)
    requires TaskInv(task) && p.Outside?
    ensures Scan(p, [Lifecycle(task.assistant, Started), Lifecycle(task.assistant, Running)] + task.body)
            == Some(Inside(task.assistant))
  {
    ScanOpening(p.requesting, task.assistant);
    ScanStream(task.assistant, task.body);
    ScanConcat(p, [Lifecycle(task.assistant, Started), Lifecycle(task.assistant, Running)], task.body);
  }

  lemma {:induction false} ScanBlock(p: Place, task: Task)
    requires TaskInv(task) && p.Outside?
    ensures Scan(p, BlockOf(task)) == Some(PlaceAfter(task, p))
  {
    match task.stage
    case Created =>
    case NeverRan =>
    case Streaming => ScanUpToBody(p, task);
    case Ended(ending) =>
      ScanUpToBody(p, task);
      ScanClosing(task.assistant, ending);
      ScanConcat(p, [Lifecycle(task.assistant, Started), Lifecycle(task.assistant, Running)] + task.body,
                 Closing(task.assistant, ending));
  }

  lemma {:induction false} ScanBlocks(tasks: seq<Task>)
    requires forall k :: 0 <= k < |tasks| ==> TaskInv(tasks[k])
    requires forall k :: 0 <= k < |tasks| - 1 ==> tasks[k].Done()
    ensures var place := Scan(Outside(false), Blocks(tasks));
      && place.Some?
      && (place.value.Outside? <==> tasks == [] || !tasks[|tasks| - 1].stage.Streaming?)
      && (tasks != [] && tasks[|tasks| - 1].stage.Streaming? ==> place == Some(Inside(tasks[|tasks| - 1].assistant)))
  {
    if tasks != [] {
      var init, last := tasks[..|tasks| - 1], tasks[|tasks| - 1];
      ScanBlocks(init);
      var p := Scan(Outside(false), Blocks(init)).value;
      ScanBlock(p, last);
      ScanConcat(Outside(false), Blocks(init), BlockOf(last));
    }
  }

  lemma {:induction false} OnlyLastLive(t: Thread)
    requires SlotInv(t)
    ensures forall k :: 0 <= k < |t.tasks| - 1 ==> t.tasks[k].Done()
  {
    forall k | 0 <= k < |t.tasks| - 1 ensures t.tasks[k].Done() {
      if Live(t, k) { LiveIsLast(t, k); }
    }
  }

  /**
   Every reachable log is a sequence of complete run blocks, with at most one
   unfinished block at the end, and that one belongs to the run now streaming.
   */
  lemma {:induction false} LogGrammar(loads: Loads, stored: Option<string>, steps: seq<Step>)
    ensures var t := History(loads, stored, steps);
      && Scan(Outside(false), t.log).Some?
      && !Scan(Outside(false), t.log).value.Opened?
      && (Scan(Outside(false), t.log).value.Inside? <==> exists k :: At(t, k, Streaming))
  {
    var t := History(loads, stored, steps);
    HistoryInv(loads, stored, steps);
    OnlyLastLive(t);
    ScanBlocks(t.tasks);
    if t.tasks != [] && t.tasks[|t.tasks| - 1].stage.Streaming? {
      assert At(t, |t.tasks| - 1, Streaming);
    }
  }

  /**
   The log itself: the blocks of the thread's runs one after the other, all but
   the last complete. A block is what `BlockOf` says: nothing for a run that
   never took a step, else two opening events, its stream, one terminal event
   once it ended, and one request per interrupt if its graph interrupted.
   */
  lemma {:induction false} LogIsBlocks(loads: Loads, stored: Option<string>, steps: seq<Step>)
    ensures var t := History(loads, stored, steps);
      && t.log == Blocks(t.tasks)
      && (forall k :: 0 <= k < |t.tasks| - 1 ==> t.tasks[k].Done())
      && (forall k :: 0 <= k < |t.tasks| ==>
            forall i :: 0 <= i < |t.tasks[k].body| ==> StreamEvent(t.tasks[k].body[i]))
  {
    HistoryInv(loads, stored, steps);
    OnlyLastLive(History(loads, stored, steps));
  }

  // ---------------------------------------------- one terminal event per run

  predicate Terminal(e: Event) {
    e.Lifecycle? && (e.status.Completed? || e.status.Failed? || e.status.Interrupted?)
  }

  function Terminals(es: seq<Event>): nat {
    if es == [] then 0 else Terminals(es[..|es| - 1]) + if Terminal(es[|es| - 1]) then 1 else 0
  }

  function EndedRuns(tasks: seq<Task>): nat {
    if tasks == [] then 0 else EndedRuns(tasks[..|tasks| - 1]) + if tasks[|tasks| - 1].stage.Ended? then 1 else 0
  }

  lemma {:induction false} TerminalsConcat(es: seq<Event>, more: seq<Event>)
    ensures Terminals(es + more) == Terminals(es) + Terminals(more)
  {
    if more == [] {
      assert es + more == es;
    } else {
      TerminalsConcat(es, more[..|more| - 1]);
      assert (es + more)[..|es + more| - 1] == es + more[..|more| - 1];
    }
  }

  lemma {:induction false} NoTerminals(es: seq<Event>)
    requires forall i :: 0 <= i < |es| ==> !Terminal(es[i])
    ensures Terminals(es) == 0
  {
    if es != [] {
      NoTerminals(es[..|es| - 1]);
    }
  }

  lemma {:induction false} ClosingTerminals(assistant: string, ending: Ending)
    ensures Terminals(Closing(assistant, ending)) == 1
  {
    var first := [Closing(assistant, ending)[0]];
    assert first[..0] == [] && Terminals(first) == 1;
    if ending.AwaitingInput? {
      NoTerminals(Requests(ending.interrupts));
      TerminalsConcat(first, Requests(ending.interrupts));
    }
  }

  lemma {:induction false} BlockTerminals(task: Task)
    requires TaskInv(task)
    ensures Terminals(BlockOf(task)) == if task.stage.Ended? then 1 else 0
  {
    var begin := [Lifecycle(task.assistant, Started), Lifecycle(task.assistant, Running)] + task.body;
    NoTerminals(begin);
    if task.stage.Ended? {
      ClosingTerminals(task.assistant, task.stage.ending);
      TerminalsConcat(begin, Closing(task.assistant, task.stage.ending));
    }
  }

  lemma {:induction false} BlocksTerminals(tasks: seq<Task>)
    requires forall k :: 0 <= k < |tasks| ==> TaskInv(tasks[k])
    ensures Terminals(Blocks(tasks)) == EndedRuns(tasks)
  {
    if tasks != [] {
      BlocksTerminals(tasks[..|tasks| - 1]);
      BlockTerminals(tasks[|tasks| - 1]);
      TerminalsConcat(Blocks(tasks[..|tasks| - 1]), BlockOf(tasks[|tasks| - 1]));
    }
  }

  /** Exactly one terminal event per ended run, and none for a run that is live or never ran. */
  lemma {:induction false} OneTerminalPerRun(loads: Loads, stored: Option<string>, steps: seq<Step>)
    ensures Terminals(History(loads, stored, steps).log) == EndedRuns(History(loads, stored, steps).tasks)
  {
    HistoryInv(loads, stored, steps);
    BlocksTerminals(History(loads, stored, steps).tasks);
  }

  lemma {:induction false} DoneTerminals(task: Task)
    requires TaskInv(task) && task.Done()
    ensures Terminals(BlockOf(task)) == if task.stage.NeverRan? then 0 else 1
  {
    BlockTerminals(task);
  }

  /**
   Exactly one terminal event for every accepted run that is done, and none
   exactly when a cancellation reached its task before its first step.
   */
  lemma {:induction false} TerminalUnlessStopped(loads: Loads, stored: Option<string>, steps: seq<Step>, k: nat)
    requires k < |History(loads, stored, steps).tasks| && History(loads, stored, steps).tasks[k].Done()
    ensures Terminals(BlockOf(History(loads, stored, steps).tasks[k])) ==
            if exists i :: Resuming.StoppedAt(loads, stored, steps, k, i) then 0 else 1
  {
    HistoryInv(loads, stored, steps);
    DoneTerminals(History(loads, stored, steps).tasks[k]);
    Resuming.SilencedIff(loads, stored, steps, k);
  }

  /** The case: an accepted run, cancelled at once, is done and has published no terminal event, nor anything. */
  lemma {:induction false} CancelledRunIsSilent(loads: Loads, stored: Option<string>)
    ensures var t := History(loads, stored,
        [StartRun(0, "agent", false, NO_PARAMS), Resolved(0), Cancel(None), FirstStep(0), DoneCallback(0)]);
      |t.tasks| == 1 && t.tasks[0].Done() && t.active == None && t.log == []
  {
    var steps := [StartRun(0, "agent", false, NO_PARAMS), Resolved(0), Cancel(None), FirstStep(0), DoneCallback(0)];
    FirstDispatch(loads, stored, steps);
    StoppedAndDone(History(loads, stored, steps[..2]));
    ThreeMore(NewThread(loads, stored), steps);
  }

  lemma {:induction false} ThreeMore(t: Thread, steps: seq<Step>)
    requires |steps| == 5
    ensures After(t, steps) == Next(Next(Next(After(t, steps[..2]), steps[2]), steps[3]), steps[4])
  {
    AfterLast(t, steps, 2);
    AfterLast(t, steps, 3);
    AfterLast(t, steps, 4);
    assert steps[..5] == steps;
  }

  lemma {:induction false} StoppedAndDone(t: Thread)
    requires |t.tasks| == 1 && t.tasks[0].stage.Created? && t.active == Some(Occupied(0)) && t.log == []
    ensures var t' := Next(Next(Next(t, Cancel(None)), FirstStep(0)), DoneCallback(0));
      |t'.tasks| == 1 && t'.tasks[0].Done() && t'.active == None && t'.log == []
  {
    var t1 := Next(t, Cancel(None));
    assert t1.tasks == [t.tasks[0].(cancelRequested := true)];
    var t2 := Next(t1, FirstStep(0));
    assert t2.tasks[0].stage.NeverRan? && 0 in t2.callbacks;
  }

  // ------------------------------------------------------- the pending inputs

  function RequestedIn(es: seq<Event>): set<string> {
    set i | 0 <= i < |es| && es[i].InputRequested? :: es[i].id
  }

  /** The payload of the latest request for an id. */
  function LatestPayload(es: seq<Event>, id: string): Option<Json> {
    if es == [] then None
    else if es[|es| - 1].InputRequested? && es[|es| - 1].id == id then Some(es[|es| - 1].payload)
    else LatestPayload(es[..|es| - 1], id)
  }

  function LogOfLastRun(t: Thread): seq<Event> {
    if t.tasks == [] then [] else BlockOf(t.tasks[|t.tasks| - 1])
  }

  function Lookup(m: map<string, Json>, id: string): Option<Json> {
    if id in m then Some(m[id]) else None
  }

  lemma {:induction false} LatestConcat(es: seq<Event>, more: seq<Event>, id: string)
    ensures LatestPayload(es + more, id) ==
            if LatestPayload(more, id).Some? then LatestPayload(more, id) else LatestPayload(es, id)
  {
    if more == [] {
      assert es + more == es;
    } else {
      LatestConcat(es, more[..|more| - 1], id);
      assert (es + more)[..|es + more| - 1] == es + more[..|more| - 1];
    }
  }

  lemma {:induction false} NoRequests(es: seq<Event>, id: string)
    requires forall i :: 0 <= i < |es| ==> !es[i].InputRequested?
    ensures LatestPayload(es, id) == None
  {
    if es != [] {
      NoRequests(es[..|es| - 1], id);
    }
  }

  lemma {:induction false} PayloadsAreLatest(interrupts: seq<Interrupt>, id: string)
    ensures Lookup(PayloadsOf(interrupts), id) == LatestPayload(Requests(interrupts), id)
  {
    if interrupts != [] {
      PayloadsAreLatest(interrupts[..|interrupts| - 1], id);
      assert Requests(interrupts)[..|interrupts| - 1] == Requests(interrupts[..|interrupts| - 1]);
    }
  }

  lemma {:induction false} ClosingLatest(assistant: string, ending: Ending, id: string)
    ensures LatestPayload(Closing(assistant, ending), id) ==
            if ending.AwaitingInput? then Lookup(PayloadsOf(ending.interrupts), id) else None
  {
    var first := [Closing(assistant, ending)[0]];
    NoRequests(first, id);
    if ending.AwaitingInput? {
      PayloadsAreLatest(ending.interrupts, id);
      LatestConcat(first, Requests(ending.interrupts), id);
    }
  }

  lemma {:induction false} BlockLatest(task: Task, id: string)
    requires TaskInv(task)
    ensures LatestPayload(BlockOf(task), id) ==
            if task.stage.Ended? && task.stage.ending.AwaitingInput?
            then Lookup(PayloadsOf(task.stage.ending.interrupts), id) else None
  {
    var begin := [Lifecycle(task.assistant, Started), Lifecycle(task.assistant, Running)] + task.body;
    NoRequests(begin, id);
    if task.stage.Ended? {
      ClosingLatest(task.assistant, task.stage.ending, id);
      LatestConcat(begin, Closing(task.assistant, task.stage.ending), id);
    }
  }

  lemma {:induction false} LatestIffRequested(es: seq<Event>, id: string)
    ensures LatestPayload(es, id).Some? <==> id in RequestedIn(es)
  {
    if es != [] {
      var init, last := es[..|es| - 1], es[|es| - 1];
      LatestIffRequested(init, id);
      assert id in RequestedIn(es) <==> (last.InputRequested? && last.id == id) || id in RequestedIn(init) by {
        if id in RequestedIn(init) {
          var i :| 0 <= i < |init| && init[i].InputRequested? && init[i].id == id;
          assert es[i] == init[i];
        }
        if id in RequestedIn(es) && !(last.InputRequested? && last.id == id) {
          var i :| 0 <= i < |es| && es[i].InputRequested? && es[i].id == id;
          assert init[i] == es[i];
        }
      }
    }
  }

  /**
   The pending map agrees with the log: it holds exactly the ids the thread's
   last run requested, each with the payload of its latest request, beside the
   assistant of that run; and nothing runs while it is there.
   */
  lemma {:induction false} PendingAgrees(loads: Loads, stored: Option<string>, steps: seq<Step>, id: string)
    ensures var t := History(loads, stored, steps);
      && LatestPayload(LogOfLastRun(t), id) ==
           (if t.pending.Some? then Lookup(t.pending.value.payloads, id) else None)
      && (id in RequestedIn(LogOfLastRun(t)) <==> t.pending.Some? && id in t.pending.value.payloads)
      && (t.pending.Some? ==>
            LiveRuns(t) == {} && t.tasks != [] && t.lastAssistant == Some(t.pending.value.assistant))
  {
    var t := History(loads, stored, steps);
    HistoryInv(loads, stored, steps);
    LatestIffRequested(LogOfLastRun(t), id);
    PendingAgreesAt(t, id);
  }

  lemma {:induction false} PendingAgreesAt(t: Thread, id: string)
    requires Inv(t)
    ensures LatestPayload(LogOfLastRun(t), id) ==
            if t.pending.Some? then Lookup(t.pending.value.payloads, id) else None
    ensures t.pending.Some? ==>
              LiveRuns(t) == {} && t.tasks != [] && t.lastAssistant == Some(t.pending.value.assistant)
  {
    if t.tasks != [] {
      assert TaskInv(t.tasks[|t.tasks| - 1]);
      BlockLatest(t.tasks[|t.tasks| - 1], id);
      OnlyLastLive(t);
    }
  }
}
