/**
 Starting and resuming on one thread: failed starts leave no trace, each pending
 map is consumed at most once, a cancellation reaches only the run it names, and
 the stored assistant and the in-memory one resolve a response alike.
 */
module Resuming {
  import opened Options
  import opened Json
  import opened Translation
  import opened RunConfigs
  import opened Runs
  import opened RunInvariants
  import opened RunGuarantees

  // -------------------------------------------------------- failed starts

  /** A response whose interrupt id nobody knows: nothing to resume with. */
  predicate UnknownInterrupt(t: Thread, step: Step) {
    match step
    case Respond(_, id, assistantArg) => ResumeWith(t, id, assistantArg).None?
    case RouterRespond(_, id, inSnapshot) => !inSnapshot || !Truthy(t.stored) || ResumeWith(t, id, t.stored).None?
    case _ => false
  }

  /**
   A start or response under a new run id is rejected, and then changes nothing
   at all, exactly on a busy thread or for an unknown interrupt; otherwise it
   reserves the thread for that run. What the router starts has an assistant and
   a configurable object of the router's making.
   */
  lemma {:induction false} RejectedIff(t: Thread, step: Step)
    requires (step.StartRun? || step.Respond? || step.RouterRespond?) && step.run !in t.used
    requires step.StartRun? && step.viaRouter ==>
               && step.assistant != ""
               && "configurable" in step.params.config && step.params.config["configurable"].Obj?
    ensures Next(t, step) == t <==> Busy(t) || UnknownInterrupt(t, step)
    ensures !Busy(t) && !UnknownInterrupt(t, step) ==>
              var t' := Next(t, step);
              && t'.active == Some(Reserved(step.run)) && step.run in t'.resolving
              && (step.StartRun? ==> t'.resolving[step.run] == Start(step.assistant, step.viaRouter, None, step.params))
              && (!step.StartRun? ==> t'.resolving[step.run].found == if t.pending.Some? then Some(|t.tasks|) else None)
              && t'.log == t.log && t'.tasks == t.tasks && t'.pending == t.pending && t'.lastAssistant == t.lastAssistant
  {
    assert Enabled(t, step);
    if !Busy(t) && !UnknownInterrupt(t, step) {
      assert step.run in Next(t, step).used;
    }
  }

  lemma {:induction false} UsedGrows(t: Thread, step: Step)
    ensures t.used <= Next(t, step).used
    ensures forall run :: run in Next(t, step).resolving && run !in t.resolving ==> run !in t.used
  {
    if Enabled(t, step) && TaskStep(step) { TaskStepIsEffect(t, step); }
  }

  /** A run id is never reserved twice, so one seen suspended twice was suspended all along. */
  lemma {:induction false} SuspendedThroughout(t: Thread, steps: seq<Step>, run: RunId)
    requires run in t.used && run in After(t, steps).resolving
    ensures run in t.resolving
    ensures steps != [] ==> run in After(t, steps[..|steps| - 1]).resolving
    ensures run in After(t, steps).used
  {
    if steps != [] {
      var before := After(t, steps[..|steps| - 1]);
      UsedAlways(t, steps[..|steps| - 1]);
      UsedGrows(before, steps[|steps| - 1]);
      SuspendedThroughout(t, steps[..|steps| - 1], run);
    }
  }

  lemma {:induction false} UsedAlways(t: Thread, steps: seq<Step>)
    ensures t.used <= After(t, steps).used
  {
    if steps != [] {
      UsedAlways(t, steps[..|steps| - 1]);
      UsedGrows(After(t, steps[..|steps| - 1]), steps[|steps| - 1]);
    }
  }

  /** A step that leaves a start suspended leaves its thread's runs, log and pending map alone. */
  lemma {:induction false} SuspendedStep(t: Thread, step: Step, run: RunId)
    requires Inv(t) && run in t.resolving && run in Next(t, step).resolving
    ensures SameRuns(t, Next(t, step))
  {
    OnlyReservation(t, run);
    if !(step.Resolved? && Enabled(t, step)) {
      HeldSlotStep(t, step);
    }
  }

  lemma {:induction false} WhileSuspended(t: Thread, steps: seq<Step>, run: RunId)
    requires Inv(t) && run in t.used && run in After(t, steps).resolving
    ensures SameRuns(t, After(t, steps))
  {
    if steps != [] {
      var init := steps[..|steps| - 1];
      SuspendedThroughout(t, steps, run);
      WhileSuspended(t, init, run);
      Reachable(t, init);
      SuspendedStep(After(t, init), steps[|steps| - 1], run);
    }
  }

  lemma {:induction false} Began(t: Thread, start: Step)
    requires start.StartRun? || start.Respond? || start.RouterRespond?
    ensures SameRuns(t, Next(t, start))
    ensures start.run in Next(t, start).resolving && start.run !in t.resolving ==> start.run in Next(t, start).used
  {
  }

  /**
   A start whose resolution fails leaves the pending map, the log and the runs
   as it found them, and the slot free again, whatever happened while it was suspended.
   */
  lemma {:induction false} FailedStartLeavesNoTrace(
    loads: Loads, stored: Option<string>, before: seq<Step>, start: Step, during: seq<Step>)
    requires start.StartRun? || start.Respond? || start.RouterRespond?
    requires var t := History(loads, stored, before);
             && start.run !in t.used && start.run in Next(t, start).resolving
             && start.run in After(Next(t, start), during).resolving
    ensures var t := History(loads, stored, before);
      var t' := Next(After(Next(t, start), during), ResolveFailed(start.run));
      && t'.pending == t.pending && t'.log == t.log && t'.tasks == t.tasks && t'.active == None
  {
    var t := History(loads, stored, before);
    var t1 := Next(t, start);
    HistoryInv(loads, stored, before);
    NextInv(t, start);
    assert start.run !in t.resolving;
    Began(t, start);
    WhileSuspended(t1, during, start.run);
    Reachable(t1, during);
    OnlyReservation(After(t1, during), start.run);
  }

  // ------------------------------------------------------ consuming the pending map

  /**
   Resume at most once: of all runs whose response found its interrupt in the
   map registered by the run before position `g`, at most one was ever
   dispatched, it directly follows that run, and that run asked for input.
   */
  lemma {:induction false} ResumeAtMostOnce(
    loads: Loads, stored: Option<string>, steps: seq<Step>, i: nat, j: nat, g: nat)
    requires var tasks := History(loads, stored, steps).tasks;
             i < |tasks| && j < |tasks| && tasks[i].found == Some(g) && tasks[j].found == Some(g)
    ensures i == j == g && Asked(History(loads, stored, steps).tasks, g)
  {
    HistoryInv(loads, stored, steps);
  }

  /** Dispatching consumes the map: whoever dispatches next finds none, or one registered later. */
  lemma {:induction false} DispatchConsumes(loads: Loads, stored: Option<string>, steps: seq<Step>, run: RunId)
    requires var t := History(loads, stored, steps); run in t.resolving && Mergeable(t.resolving[run].params)
    ensures var t := History(loads, stored, steps); var t' := Next(t, Resolved(run)); var start := t.resolving[run];
      && t'.pending == None && t'.log == t.log
      && t'.tasks == t.tasks + [Task(run, start.assistant, start.found, Created, false, Translator(t.loads, []), None, [], [])]
      && t'.lastAssistant == Some(start.assistant)
      && t'.stored == if start.binds then Some(start.assistant) else t.stored
  {
    HistoryInv(loads, stored, steps);
  }

  // -------------------------------------------------------------- cancelling

  /** The run a cancellation names, or any run when it names none. */
  predicate Targets(target: Option<RunId>, run: RunId) { target == None || target == Some(run) }

  /** Cancelling reaches the live run, if it is the one named or none is named, and changes nothing else. */
  lemma {:induction false} CancelReachesOnlyItsRun(loads: Loads, stored: Option<string>, steps: seq<Step>, target: Option<RunId>)
    ensures var t := History(loads, stored, steps); var t' := Next(t, Cancel(target));
      && |t'.tasks| == |t.tasks|
      && (forall k :: 0 <= k < |t.tasks| ==>
            t'.tasks[k] == if Targets(target, t.tasks[k].run) && Live(t, k) then t.tasks[k].(cancelRequested := true)
                           else t.tasks[k])
      && t' == t.(tasks := t'.tasks)
  {
    var t := History(loads, stored, steps);
    HistoryInv(loads, stored, steps);
    CancelAt(t, target);
  }

  lemma {:induction false} CancelAt(t: Thread, target: Option<RunId>)
    requires SlotInv(t)
    ensures var t' := Request(t, target);
      && |t'.tasks| == |t.tasks|
      && (forall k :: 0 <= k < |t.tasks| ==>
            t'.tasks[k] == if Targets(target, t.tasks[k].run) && Live(t, k) then t.tasks[k].(cancelRequested := true)
                           else t.tasks[k])
      && t' == t.(tasks := t'.tasks)
  {
    forall k | 0 <= k < |t.tasks| && Live(t, k) ensures t.active == Some(Occupied(k)) {
      LiveIsLast(t, k);
    }
  }

  /** Asked to stop before its first step, or stopped there. */
  predicate Silenced(t: Thread, k: nat) {
    k < |t.tasks| && (t.tasks[k].stage.NeverRan? || (t.tasks[k].stage.Created? && t.tasks[k].cancelRequested))
  }

  lemma {:induction false} SilencedByTaskStep(t: Thread, step: Step, k: nat)
    requires Silenced(t, k) && TaskStep(step) && Enabled(t, step)
    ensures Silenced(Next(t, step), k)
  {
    TaskStepIsEffect(t, step);
  }

  lemma {:induction false} SilencedByOther(t: Thread, step: Step, k: nat)
    requires Silenced(t, k) && !TaskStep(step)
    ensures Silenced(Next(t, step), k)
  {
  }

  /** A run asked to stop before its first step never publishes anything, however the process goes on. */
  lemma {:induction false} SilencedForGood(t: Thread, k: nat, steps: seq<Step>)
    requires Silenced(t, k)
    ensures Silenced(After(t, steps), k) && BlockOf(After(t, steps).tasks[k]) == []
  {
    if steps != [] {
      var before := After(t, steps[..|steps| - 1]);
      var step := steps[|steps| - 1];
      SilencedForGood(t, k, steps[..|steps| - 1]);
      if TaskStep(step) {
        if Enabled(before, step) { SilencedByTaskStep(before, step, k); }
      } else {
        SilencedByOther(before, step, k);
      }
    }
  }

  /** A cancellation reaches run `k` before its task takes its first step. */
  predicate StopsEarly(t: Thread, step: Step, k: nat) {
    step.Cancel? && At(t, k, Created) && (step.target.None? || step.target.value == t.tasks[k].run)
  }

  ghost predicate StoppedAt(loads: Loads, stored: Option<string>, steps: seq<Step>, k: nat, i: int) {
    0 <= i < |steps| && StopsEarly(History(loads, stored, steps[..i]), steps[i], k)
  }

  lemma {:induction false} SilencedByCancel(t: Thread, target: Option<RunId>, k: nat)
    requires SlotInv(t) && k < |t.tasks|
    ensures Silenced(Request(t, target), k) <==> Silenced(t, k) || StopsEarly(t, Cancel(target), k)
  {
    if Live(t, k) { LiveIsLast(t, k); }
  }

  lemma {:induction false} SilencedNowByTask(t: Thread, step: Step, k: nat)
    requires k < |t.tasks| && TaskStep(step) && Enabled(t, step)
    ensures Silenced(Next(t, step), k) <==> Silenced(t, k)
  {
    TaskStepIsEffect(t, step);
  }

  lemma {:induction false} SameSilence(t: Thread, step: Step, k: nat)
    requires k < |t.tasks| && !step.Cancel? && !(TaskStep(step) && Enabled(t, step))
    ensures Silenced(Next(t, step), k) <==> Silenced(t, k)
  {
  }

  lemma {:induction false} SilencedNow(t: Thread, step: Step, k: nat)
    requires SlotInv(t) && k < |t.tasks|
    ensures Silenced(Next(t, step), k) <==> Silenced(t, k) || StopsEarly(t, step, k)
  {
    if step.Cancel? {
      SilencedByCancel(t, step.target, k);
    } else if TaskStep(step) && Enabled(t, step) {
      SilencedNowByTask(t, step, k);
    } else {
      SameSilence(t, step, k);
    }
  }

  lemma {:induction false} NewAreNotSilenced(t: Thread, step: Step, k: nat)
    requires k >= |t.tasks|
    ensures !Silenced(Next(t, step), k)
  {
    if TaskStep(step) && Enabled(t, step) { TaskStepIsEffect(t, step); }
  }

  lemma {:induction false} StoppedSooner(loads: Loads, stored: Option<string>, steps: seq<Step>, k: nat, n: nat)
    requires n + 1 == |steps|
    ensures (exists i :: StoppedAt(loads, stored, steps, k, i)) <==>
            (exists i :: StoppedAt(loads, stored, steps[..n], k, i)) || StopsEarly(History(loads, stored, steps[..n]), steps[n], k)
  {
    forall i | 0 <= i < n ensures StoppedAt(loads, stored, steps, k, i) <==> StoppedAt(loads, stored, steps[..n], k, i) {
      assert steps[..n][..i] == steps[..i];
    }
    assert StopsEarly(History(loads, stored, steps[..n]), steps[n], k) <==> StoppedAt(loads, stored, steps, k, n);
  }

  /** A run is silenced exactly when a cancellation reached its task before its first step. */
  lemma {:induction false} SilencedIff(loads: Loads, stored: Option<string>, steps: seq<Step>, k: nat)
    ensures Silenced(History(loads, stored, steps), k) <==> exists i :: StoppedAt(loads, stored, steps, k, i)
  {
    if steps != [] {
      var n := |steps| - 1;
      var t := History(loads, stored, steps[..n]);
      SilencedIff(loads, stored, steps[..n], k);
      StoppedSooner(loads, stored, steps, k, n);
      HistoryInv(loads, stored, steps[..n]);
      if k < |t.tasks| { SilencedNow(t, steps[n], k); } else { NewAreNotSilenced(t, steps[n], k); }
    }
  }

  // ------------------------------------------------------- assistant binding

  /** The commands as the router issues them: it never calls `respond` without the stored assistant. */
  predicate ThroughRouter(step: Step) {
    !step.Respond? && (step.StartRun? ==> step.viaRouter)
  }

  ghost predicate BindingInv(t: Thread) {
    && (t.tasks != [] ==> t.stored == t.lastAssistant && Truthy(t.stored))
    && (forall run :: run in t.resolving ==>
          var s := t.resolving[run]; s.assistant != "" && (s.binds || t.stored == Some(s.assistant)))
  }

  lemma {:induction false} TaskStepBinding(t: Thread, step: Step)
    requires TaskStep(step) && Enabled(t, step) && BindingInv(t)
    ensures BindingInv(Next(t, step))
  {
    TaskStepIsEffect(t, step);
  }

  lemma {:induction false} ResumeBinding(t: Thread, run: RunId, id: string)
    requires BindingInv(t) && Truthy(t.stored)
    ensures BindingInv(BeginResume(t, run, id, t.stored))
  {
  }

  lemma {:induction false} DispatchBinding(t: Thread, run: RunId)
    requires SlotInv(t) && BindingInv(t) && run in t.resolving
    ensures BindingInv(Dispatch(t, run))
  {
    OnlyReservation(t, run);
    assert Dispatch(t, run).resolving == map[];
  }

  lemma {:induction false} OtherBinding(t: Thread, step: Step)
    requires BindingInv(t) && ThroughRouter(step)
    requires !TaskStep(step) && !step.Resolved? && !step.RouterRespond?
    ensures BindingInv(Next(t, step))
  {
  }

  lemma {:induction false} BindingStep(t: Thread, step: Step)
    requires Inv(t) && BindingInv(t) && ThroughRouter(step)
    ensures BindingInv(Next(t, step))
  {
    if Enabled(t, step) {
      if TaskStep(step) {
        TaskStepBinding(t, step);
      } else if step.Resolved? {
        DispatchBinding(t, step.run);
      } else if step.RouterRespond? {
        if Truthy(t.stored) { ResumeBinding(t, step.run, step.id); }
      } else {
        OtherBinding(t, step);
      }
    }
  }

  lemma {:induction false} BindingReachable(loads: Loads, stored: Option<string>, steps: seq<Step>)
    requires forall i :: 0 <= i < |steps| ==> ThroughRouter(steps[i])
    ensures BindingInv(History(loads, stored, steps))
  {
    if steps != [] {
      BindingReachable(loads, stored, steps[..|steps| - 1]);
      HistoryInv(loads, stored, steps[..|steps| - 1]);
      BindingStep(History(loads, stored, steps[..|steps| - 1]), steps[|steps| - 1]);
    }
  }

  /**
   Assistant binding: through the router, once a run was dispatched the stored
   assistant is the last one that ran, and a response to a pending interrupt
   resumes that assistant alike from the in-memory map and, after a restart
   has lost it, from the store.
   */
  lemma {:induction false} AssistantBinding(loads: Loads, stored: Option<string>, steps: seq<Step>, id: string)
    requires forall i :: 0 <= i < |steps| ==> ThroughRouter(steps[i])
    requires History(loads, stored, steps).tasks != []
    ensures var t := History(loads, stored, steps);
      && t.stored == t.lastAssistant && t.stored.Some?
      && (t.pending.Some? && t.pending.value.Knows(id) ==>
            ResumeWith(t, id, None) == ResumeWith(t, id, t.stored)
            == ResumeWith(t.(pending := None), id, t.stored) == t.stored)
  {
    HistoryInv(loads, stored, steps);
    BindingReachable(loads, stored, steps);
  }
}
