/**
 What a run's steps publish and what its end asks for, said of the steps: the
 values streamed last, the entries they carry, and what is resumed by a response.
 */
module Asking {
  import opened Options
  import opened Json
  import opened Translation
  import opened RunConfigs
  import opened Runs
  import opened RunInvariants
  import opened RunGuarantees
  import OpenMessages
  import RunLog

  // ----------------------------------------------------- the values streamed

  /** The snapshots streamed to run `k`, in order: those of the steps that were taken. */
  ghost function Snapshots(loads: Loads, stored: Option<string>, steps: seq<Step>, k: nat): seq<Snapshot> {
    if steps == [] then []
    else
      var init, last := steps[..|steps| - 1], steps[|steps| - 1];
      Snapshots(loads, stored, init, k) +
      if last.StreamValues? && last.k == k && At(History(loads, stored, init), k, Streaming) then [last.snapshot] else []
  }

  function LastOf(snapshots: seq<Snapshot>): Option<Snapshot> {
    if snapshots == [] then None else Some(snapshots[|snapshots| - 1])
  }

  /** The values events among some events. */
  function ValuesIn(es: seq<Event>): seq<Json> {
    if es == [] then []
    else ValuesIn(es[..|es| - 1]) + if es[|es| - 1].Values? then [es[|es| - 1].fields] else []
  }

  function FieldsOf(snapshots: seq<Snapshot>): seq<Json> {
    seq(|snapshots|, i requires 0 <= i < |snapshots| => snapshots[i].fields)
  }

  /** A task has published and remembered these snapshots. */
  ghost predicate Carries(task: Task, snapshots: seq<Snapshot>) {
    task.lastValues == LastOf(snapshots) && ValuesIn(task.body) == FieldsOf(snapshots)
  }

  lemma {:induction false} NoValues(es: seq<Event>, frames: seq<Frame>)
    ensures ValuesIn(es + Messages(frames)) == ValuesIn(es)
    decreases |frames|
  {
    if frames == [] {
      assert es + Messages(frames) == es;
    } else {
      var init := frames[..|frames| - 1];
      NoValues(es, init);
      assert (es + Messages(frames))[..|es| + |init|] == es + Messages(init);
      assert ValuesIn(es) + [] == ValuesIn(es);
    }
  }

  lemma {:induction false} CalledCarries(task: Task, call: Call, snapshots: seq<Snapshot>)
    requires Carries(task, snapshots)
    ensures Carries(Called(task, call).0, snapshots)
  {
    NoValues(task.body, Apply(task.translator, call).frames);
  }

  lemma {:induction false} FedCarries(task: Task, c: Chunk, snapshots: seq<Snapshot>)
    requires Carries(task, snapshots)
    ensures Carries(Fed(task, c).0, snapshots)
  {
    CalledCarries(task, Feed(c), snapshots);
    if c.usage.Some? { CalledCarries(Called(task, Feed(c)).0, FinishMessage(c), snapshots); }
  }

  lemma {:induction false} ValuesCarries(task: Task, s: Snapshot, snapshots: seq<Snapshot>)
    requires Carries(task, snapshots)
    ensures Carries(task.(lastValues := Some(s), body := task.body + [Values(s.fields)]), snapshots + [s])
  {
    assert (task.body + [Values(s.fields)])[..|task.body|] == task.body;
  }

  lemma {:induction false} EffectCarries(t: Thread, step: Step, snapshots: seq<Snapshot>)
    requires TaskStep(step) && Enabled(t, step) && Carries(t.tasks[step.k], snapshots)
    ensures Carries(EffectOf(t, step).task, snapshots + if step.StreamValues? then [step.snapshot] else [])
  {
    var task := t.tasks[step.k];
    assert snapshots + [] == snapshots;
    match step
    case FirstStep(_) =>
    case StreamMessage(_, c) => FedCarries(task, c, snapshots);
    case StreamValues(_, s) => ValuesCarries(task, s, snapshots);
    case EndOfStream(_, _) => CalledCarries(task, FinishEvery, snapshots);
    case CancelDelivered(_) => CalledCarries(task, FinishEvery, snapshots);
    case StreamRaised(_, _) => CalledCarries(task, FinishEvery, snapshots);
  }

  /** Another step leaves what a task published and remembered alone. */
  lemma {:induction false} OtherCarries(t: Thread, step: Step, k: nat)
    requires k < |t.tasks| && !(TaskStep(step) && step.k == k && Enabled(t, step))
    ensures k < |Next(t, step).tasks|
    ensures Next(t, step).tasks[k].lastValues == t.tasks[k].lastValues && Next(t, step).tasks[k].body == t.tasks[k].body
  {
    if TaskStep(step) && Enabled(t, step) { TaskStepIsEffect(t, step); }
  }

  lemma {:induction false} NewCarryNothing(t: Thread, step: Step, k: nat)
    requires |t.tasks| <= k < |Next(t, step).tasks|
    ensures Next(t, step).tasks[k].lastValues.None? && Next(t, step).tasks[k].body == []
  {
    if TaskStep(step) && Enabled(t, step) { TaskStepIsEffect(t, step); }
  }

  lemma {:induction false} NoneYet(loads: Loads, stored: Option<string>, steps: seq<Step>, k: nat)
    requires |History(loads, stored, steps).tasks| <= k
    ensures Snapshots(loads, stored, steps, k) == []
  {
    if steps != [] {
      OpenMessages.NewTasks(History(loads, stored, steps[..|steps| - 1]), steps[|steps| - 1]);
      NoneYet(loads, stored, steps[..|steps| - 1], k);
    }
  }

  lemma {:induction false} CarriesNext(t: Thread, step: Step, k: nat, snapshots: seq<Snapshot>)
    requires k < |t.tasks| && Carries(t.tasks[k], snapshots)
    ensures k < |Next(t, step).tasks|
    ensures Carries(Next(t, step).tasks[k],
                    snapshots + if step.StreamValues? && step.k == k && At(t, k, Streaming) then [step.snapshot] else [])
  {
    if TaskStep(step) && step.k == k && Enabled(t, step) {
      EffectCarries(t, step, snapshots);
      TaskStepIsEffect(t, step);
    } else {
      OtherCarries(t, step, k);
      assert snapshots + [] == snapshots;
    }
  }

  /**
   Each snapshot streamed to a run is published as one values event, in order,
   and the last of them is the one the run remembers.
   */
  lemma {:induction false} ValuesAreStreamed(loads: Loads, stored: Option<string>, steps: seq<Step>, k: nat)
    requires k < |History(loads, stored, steps).tasks|
    ensures var task := History(loads, stored, steps).tasks[k]; var snapshots := Snapshots(loads, stored, steps, k);
      && ValuesIn(task.body) == FieldsOf(snapshots)
      && task.lastValues == LastOf(snapshots)
  {
    if steps != [] {
      var init, last := steps[..|steps| - 1], steps[|steps| - 1];
      var t := History(loads, stored, init);
      OpenMessages.NewTasks(t, last);
      if k < |t.tasks| {
        ValuesAreStreamed(loads, stored, init, k);
        CarriesNext(t, last, k, Snapshots(loads, stored, init, k));
      } else {
        NoneYet(loads, stored, init, k);
        NewCarryNothing(t, last, k);
      }
    }
  }

  // ------------------------------------------------- what the end of a stream asks

  /** The entries the end of run `k`'s stream looks at: of the last values streamed, or the fallback's. */
  ghost function EntriesAt(loads: Loads, stored: Option<string>, steps: seq<Step>, k: nat, fallback: Snapshot): seq<InterruptEntry> {
    var snapshots := Snapshots(loads, stored, steps, k);
    (if snapshots == [] then fallback else snapshots[|snapshots| - 1]).interrupts
  }

  /** A request for an entry: its own id, or the text of no id; its own value. */
  predicate RequestFor(e: Event, entry: InterruptEntry) {
    && e.InputRequested? && e.payload == entry.value
    && e.id == (if entry.id.Some? && entry.id.value != "" then entry.id.value
                else if entry.Dict? && entry.id.Some? then "" else "None")
  }

  /** The log went on with the interruption of a run and a request for each entry, in order. */
  predicate AskedIn(log: seq<Event>, log': seq<Event>, assistant: string, entries: seq<InterruptEntry>) {
    && |log'| == |log| + 1 + |entries| && log'[..|log|] == log
    && log'[|log|] == Lifecycle(assistant, Interrupted)
    && forall i :: 0 <= i < |entries| ==> RequestFor(log'[|log| + 1 + i], entries[i])
  }

  lemma {:induction false} RequestsMatch(s: Snapshot)
    ensures |Requests(InterruptsOf(s))| == |s.interrupts|
    ensures forall i :: 0 <= i < |s.interrupts| ==> RequestFor(Requests(InterruptsOf(s))[i], s.interrupts[i])
  {
  }

  /** No entry has the reserved id. */
  predicate Unreserved(entries: seq<InterruptEntry>) {
    forall i :: 0 <= i < |entries| ==> entries[i].id != Some("assistant_id")
  }

  lemma {:induction false} EndIsEnabled(t: Thread, k: nat, s: Snapshot, fallback: Snapshot)
    requires At(t, k, Streaming) && Unreserved(s.interrupts)
    requires s == if t.tasks[k].lastValues.Some? then t.tasks[k].lastValues.value else fallback
    ensures Enabled(t, EndOfStream(k, fallback)) && Outcome(t.tasks[k], fallback) == InterruptsOf(s)
  {
    forall i: Interrupt | i in InterruptsOf(s) ensures i.id != "assistant_id" {
      var n :| 0 <= n < |s.interrupts| && i == InterruptsOf(s)[n];
      assert s.interrupts[n].id != Some("assistant_id");
    }
  }

  lemma {:induction false} EndAsks(t: Thread, k: nat, s: Snapshot, fallback: Snapshot)
    requires At(t, k, Streaming) && Unreserved(s.interrupts) && s.interrupts != []
    requires s == if t.tasks[k].lastValues.Some? then t.tasks[k].lastValues.value else fallback
    ensures var t' := Next(t, EndOfStream(k, fallback));
      && t'.log == t.log + ([Lifecycle(t.tasks[k].assistant, Interrupted)] + Requests(InterruptsOf(s)))
      && |t'.tasks| == |t.tasks| && t'.tasks[k].stage == Ended(AwaitingInput(InterruptsOf(s)))
      && t'.pending == Some(Pending(t.tasks[k].assistant, PayloadsOf(InterruptsOf(s))))
  {
    EndIsEnabled(t, k, s, fallback);
    assert |InterruptsOf(s)| == |s.interrupts|;
  }

  lemma {:induction false} EndCompletes(t: Thread, k: nat, s: Snapshot, fallback: Snapshot)
    requires At(t, k, Streaming) && s.interrupts == []
    requires s == if t.tasks[k].lastValues.Some? then t.tasks[k].lastValues.value else fallback
    ensures var t' := Next(t, EndOfStream(k, fallback));
      && t'.log == t.log + (Messages(FinishAll(t.tasks[k].translator.loads, t.tasks[k].translator.open).1)
                            + [Lifecycle(t.tasks[k].assistant, Completed)])
      && |t'.tasks| == |t.tasks| && t'.tasks[k].stage == Ended(Finished) && t'.pending == t.pending
  {
    EndIsEnabled(t, k, s, fallback);
    assert InterruptsOf(s) == [];
  }

  /**
   A stream that ends asks for input if and only if the values streamed last to
   its run, or the checkpoint's when none were, have an entry. Then the thread's
   log gains the interruption and one request per entry, in order, with the
   entry's own id and value; otherwise the run completes and nothing is asked.
   */
  lemma {:induction false} AsksIffEntries(loads: Loads, stored: Option<string>, steps: seq<Step>, k: nat, fallback: Snapshot)
    requires At(History(loads, stored, steps), k, Streaming)
    requires Unreserved(EntriesAt(loads, stored, steps, k, fallback))
    ensures var t := History(loads, stored, steps);
      var t' := Next(t, EndOfStream(k, fallback));
      var entries := EntriesAt(loads, stored, steps, k, fallback);
      if entries == [] then
        && t'.pending.None? && t'.tasks[k].stage == Ended(Finished)
        && t'.log != [] && t'.log[|t'.log| - 1] == Lifecycle(t.tasks[k].assistant, Completed)
      else
        && t'.pending.Some? && t'.pending.value.assistant == t.tasks[k].assistant
        && AskedIn(t.log, t'.log, t.tasks[k].assistant, entries)
  {
    var t := History(loads, stored, steps);
    var entries := EntriesAt(loads, stored, steps, k, fallback);
    LookedAt(loads, stored, steps, k, fallback);
    var s := if t.tasks[k].lastValues.Some? then t.tasks[k].lastValues.value else fallback;
    NothingPending(loads, stored, steps, k);
    if entries == [] { EndLog(t, k, s, fallback); } else { EndRequests(t, k, s, fallback); }
  }

  /** The run's memory is its last streamed snapshot. */
  lemma {:induction false} LookedAt(loads: Loads, stored: Option<string>, steps: seq<Step>, k: nat, fallback: Snapshot)
    requires k < |History(loads, stored, steps).tasks|
    ensures var task := History(loads, stored, steps).tasks[k];
      (if task.lastValues.Some? then task.lastValues.value else fallback).interrupts == EntriesAt(loads, stored, steps, k, fallback)
  {
    ValuesAreStreamed(loads, stored, steps, k);
  }

  lemma {:induction false} NothingPending(loads: Loads, stored: Option<string>, steps: seq<Step>, k: nat)
    requires At(History(loads, stored, steps), k, Streaming)
    ensures History(loads, stored, steps).pending.None?
  {
    HistoryInv(loads, stored, steps);
    LiveIsLast(History(loads, stored, steps), k);
  }

  lemma {:induction false} EndLog(t: Thread, k: nat, s: Snapshot, fallback: Snapshot)
    requires At(t, k, Streaming) && s.interrupts == [] && t.pending.None?
    requires s == if t.tasks[k].lastValues.Some? then t.tasks[k].lastValues.value else fallback
    ensures var t' := Next(t, EndOfStream(k, fallback));
      && |t'.tasks| == |t.tasks| && t'.pending.None? && t'.tasks[k].stage == Ended(Finished)
      && t'.log != [] && t'.log[|t'.log| - 1] == Lifecycle(t.tasks[k].assistant, Completed)
  {
    EndCompletes(t, k, s, fallback);
  }

  lemma {:induction false} EndRequests(t: Thread, k: nat, s: Snapshot, fallback: Snapshot)
    requires At(t, k, Streaming) && Unreserved(s.interrupts) && s.interrupts != []
    requires s == if t.tasks[k].lastValues.Some? then t.tasks[k].lastValues.value else fallback
    ensures var t' := Next(t, EndOfStream(k, fallback));
      && t'.pending.Some? && t'.pending.value.assistant == t.tasks[k].assistant
      && AskedIn(t.log, t'.log, t.tasks[k].assistant, s.interrupts)
  {
    EndAsks(t, k, s, fallback);
    RequestsMatch(s);
    ShiftedRequests(t.log, t.tasks[k].assistant, Requests(InterruptsOf(s)), s.interrupts);
  }

  lemma {:induction false} ShiftedRequests(log: seq<Event>, assistant: string, requests: seq<Event>, entries: seq<InterruptEntry>)
    requires |requests| == |entries| && forall i :: 0 <= i < |entries| ==> RequestFor(requests[i], entries[i])
    ensures AskedIn(log, log + ([Lifecycle(assistant, Interrupted)] + requests), assistant, entries)
  {
    var log' := log + ([Lifecycle(assistant, Interrupted)] + requests);
    forall i | 0 <= i < |entries| ensures RequestFor(log'[|log| + 1 + i], entries[i]) {
      assert log'[|log| + 1 + i] == requests[i];
    }
  }

  // -------------------------------------------------- what the other steps publish

  /** Streamed values are in the log as they are. */
  lemma {:induction false} StreamedValuesPublish(t: Thread, k: nat, s: Snapshot)
    requires At(t, k, Streaming)
    ensures Next(t, StreamValues(k, s)).log == t.log + [Values(s.fields)]
  {
  }

  /** A cancellation delivered to the stream finishes what is open and reads as an interruption. */
  lemma {:induction false} CancellationPublishes(t: Thread, k: nat)
    requires At(t, k, Streaming)
    ensures var finished := Messages(FinishAll(t.tasks[k].translator.loads, t.tasks[k].translator.open).1);
      && Next(t, CancelDelivered(k)).log == t.log + (finished + [Lifecycle(t.tasks[k].assistant, Interrupted)])
      && At(Next(t, CancelDelivered(k)), k, Ended(Cancelled))
  {
  }

  /** An exception of the stream finishes what is open and reads as a failure, with its text. */
  lemma {:induction false} ErrorPublishes(t: Thread, k: nat, error: string)
    requires At(t, k, Streaming)
    ensures var finished := Messages(FinishAll(t.tasks[k].translator.loads, t.tasks[k].translator.open).1);
      && Next(t, StreamRaised(k, error)).log == t.log + (finished + [Lifecycle(t.tasks[k].assistant, Failed(error))])
      && At(Next(t, StreamRaised(k, error)), k, Ended(Errored(error)))
  {
  }

  lemma {:induction false} FirstStepPublishes(t: Thread, k: nat)
    requires At(t, k, Created) && !t.tasks[k].cancelRequested
    ensures var t' := Next(t, FirstStep(k)); var assistant := t.tasks[k].assistant;
      t'.log == t.log + [Lifecycle(assistant, Started), Lifecycle(assistant, Running)] && At(t', k, Streaming)
  {
  }

  /** A streamed chunk publishes what the translator sends for it, and for its end when it reports usage. */
  lemma {:induction false} StreamedChunkPublishes(t: Thread, k: nat, c: Chunk)
    requires At(t, k, Streaming)
    ensures var fed := Apply(t.tasks[k].translator, Feed(c));
      Next(t, StreamMessage(k, c)).log ==
      t.log + if c.usage.None? then Messages(fed.frames)
              else Messages(fed.frames) + Messages(Apply(fed.translator, FinishMessage(c)).frames)
  {
  }

  // ------------------------------------------------------- what a response resumes

  /** The assistant the response carries, if it carries one. */
  predicate Names(arg: Option<string>, assistant: string) { arg == Some(assistant) && assistant != "" }

  predicate NamesNone(arg: Option<string>) { arg == None || arg == Some("") }

  /** The ids the last run requested are the ids a response is looked up in, and a pending map has one. */
  lemma {:induction false} RequestedIsPending(loads: Loads, stored: Option<string>, steps: seq<Step>)
    ensures var t := History(loads, stored, steps); var requested := RunLog.RequestedIn(RunLog.LogOfLastRun(t));
      if t.pending.Some? then
        && requested == t.pending.value.payloads.Keys && requested != {}
        && t.lastAssistant == Some(t.pending.value.assistant)
      else requested == {}
  {
    var t := History(loads, stored, steps);
    var requested := RunLog.RequestedIn(RunLog.LogOfLastRun(t));
    var ids := if t.pending.Some? then t.pending.value.payloads.Keys else {};
    forall id: string ensures id in requested <==> id in ids { RunLog.PendingAgrees(loads, stored, steps, id); }
    assert requested == ids;
    RunLog.PendingAgrees(loads, stored, steps, "");
    HistoryInv(loads, stored, steps);
    if t.pending.Some? { PendingHasRequest(t); }
  }

  /** A pending map is never without an interrupt. */
  lemma {:induction false} PendingHasRequest(t: Thread)
    requires Inv(t) && t.pending.Some?
    ensures t.pending.value.payloads.Keys != {}
  {
    var last := t.tasks[|t.tasks| - 1];
    assert TaskInv(last);
    var interrupts := last.stage.ending.interrupts;
    assert interrupts[|interrupts| - 1].id in t.pending.value.payloads;
  }

  /**
   A response to a free thread, in terms of the log: while the last run has
   requests open, an id it requested, or the reserved key, resumes the assistant
   the response names, or else the one that asked, and any other id is refused;
   with none open, a named assistant is resumed and nothing else is.
   */
  lemma {:induction false} RespondMeans(
    loads: Loads, stored: Option<string>, steps: seq<Step>, run: RunId, id: string, arg: Option<string>, named: string)
    requires var t := History(loads, stored, steps); !Busy(t) && run !in t.used
    requires Names(arg, named) || NamesNone(arg)
    ensures var t := History(loads, stored, steps); var t' := Next(t, Respond(run, id, arg));
      var requested := RunLog.RequestedIn(RunLog.LogOfLastRun(t));
      if id in requested || (id == "assistant_id" && requested != {}) then
        && run in t'.resolving && t.lastAssistant.Some?
        && t'.resolving[run].assistant == (if Names(arg, named) then named else t.lastAssistant.value)
      else if requested == {} && Names(arg, named) then run in t'.resolving && t'.resolving[run].assistant == named
      else t' == t
  {
    var t := History(loads, stored, steps);
    RequestedIsPending(loads, stored, steps);
    RespondCases(t, run, id, arg, named, RunLog.RequestedIn(RunLog.LogOfLastRun(t)));
  }

  lemma {:induction false} RespondCases(
    t: Thread, run: RunId, id: string, arg: Option<string>, named: string, requested: set<string>)
    requires !Busy(t) && run !in t.used
    requires Names(arg, named) || NamesNone(arg)
    requires if t.pending.Some? then
               && requested == t.pending.value.payloads.Keys && requested != {}
               && t.lastAssistant == Some(t.pending.value.assistant)
             else requested == {}
    ensures var t' := Next(t, Respond(run, id, arg));
      if id in requested || (id == "assistant_id" && requested != {}) then
        && run in t'.resolving && t.lastAssistant.Some?
        && t'.resolving[run].assistant == (if Names(arg, named) then named else t.lastAssistant.value)
      else if requested == {} && Names(arg, named) then run in t'.resolving && t'.resolving[run].assistant == named
      else t' == t
  {
    assert Enabled(t, Respond(run, id, arg));
  }
}
