/**
 What the graphs streamed, step by step, and when a run leaves a message open:
 the exact condition on the streamed chunks, with a run that does.
 */
module OpenMessages {
  import opened Options
  import opened Json
  import opened Translation
  import opened RunConfigs
  import opened RoundTrip
  import opened Interleaving
  import opened RunMessages
  import opened Runs
  import RunInvariants
  import opened RunGuarantees

  // ------------------------------------------------- the chunks a run was given

  /** The chunks streamed to run `k`, in order: those of the steps that were taken. */
  ghost function Streamed(loads: Loads, stored: Option<string>, steps: seq<Step>, k: nat): seq<Chunk> {
    if steps == [] then []
    else
      var init, last := steps[..|steps| - 1], steps[|steps| - 1];
      Streamed(loads, stored, init, k) +
      if last.StreamMessage? && last.k == k && Enabled(History(loads, stored, init), last) then [last.chunk] else []
  }

  /** Each chunk is fed, and finished at once when it reports usage. */
  function CallsFor(c: Chunk): seq<Call> {
    [Feed(c)] + if c.usage.Some? then [FinishMessage(c)] else []
  }

  function CallsOf(cs: seq<Chunk>): seq<Call> {
    if cs == [] then [] else CallsOf(cs[..|cs| - 1]) + CallsFor(cs[|cs| - 1])
  }

  /** The translator calls of a task that was streamed `cs`. */
  predicate CallsMatch(task: Task, cs: seq<Chunk>) {
    && (task.stage.Created? || task.stage.NeverRan? ==> cs == [])
    && task.calls == CallsOf(cs) +
       if task.stage.Ended? && !task.stage.ending.AwaitingInput? then [FinishEvery] else []
  }

  lemma {:induction false} FedCalls(task: Task, c: Chunk)
    ensures Fed(task, c).0.calls == task.calls + CallsFor(c) && Fed(task, c).0.stage == task.stage
  {
  }

  lemma {:induction false} MatchesMore(task: Task, cs: seq<Chunk>, c: Chunk, task': Task)
    requires CallsMatch(task, cs) && task.stage.Streaming? && task'.stage.Streaming?
    requires task'.calls == task.calls + CallsFor(c)
    ensures CallsMatch(task', cs + [c])
  {
    assert (cs + [c])[..|cs|] == cs;
    assert CallsOf(cs) + [] == CallsOf(cs);
  }

  lemma {:induction false} EffectMatches(t: Thread, step: Step, cs: seq<Chunk>)
    requires RunInvariants.TaskStep(step) && Enabled(t, step) && CallsMatch(t.tasks[step.k], cs)
    ensures CallsMatch(RunInvariants.EffectOf(t, step).task, cs + if step.StreamMessage? then [step.chunk] else [])
  {
    assert cs + [] == cs && CallsOf(cs) + [] == CallsOf(cs);
    if step.StreamMessage? {
      FedCalls(t.tasks[step.k], step.chunk);
      MatchesMore(t.tasks[step.k], cs, step.chunk, Fed(t.tasks[step.k], step.chunk).0);
    }
  }

  /** Another step leaves a task's calls and the kind of its stage alone. */
  lemma {:induction false} OtherStep(t: Thread, step: Step, k: nat)
    requires k < |t.tasks| && !(RunInvariants.TaskStep(step) && step.k == k && Enabled(t, step))
    ensures k < |Next(t, step).tasks|
    ensures Next(t, step).tasks[k].calls == t.tasks[k].calls && Next(t, step).tasks[k].stage == t.tasks[k].stage
  {
    if RunInvariants.TaskStep(step) && Enabled(t, step) { RunInvariants.TaskStepIsEffect(t, step); }
  }

  lemma {:induction false} NewTasks(t: Thread, step: Step)
    ensures |t.tasks| <= |Next(t, step).tasks|
    ensures forall k :: |t.tasks| <= k < |Next(t, step).tasks| ==>
              Next(t, step).tasks[k].calls == [] && Next(t, step).tasks[k].stage.Created?
  {
    if RunInvariants.TaskStep(step) && Enabled(t, step) { RunInvariants.TaskStepIsEffect(t, step); }
  }

  lemma {:induction false} NotYetStreamed(loads: Loads, stored: Option<string>, steps: seq<Step>, k: nat)
    requires |History(loads, stored, steps).tasks| <= k
    ensures Streamed(loads, stored, steps, k) == []
  {
    if steps != [] {
      NewTasks(History(loads, stored, steps[..|steps| - 1]), steps[|steps| - 1]);
      NotYetStreamed(loads, stored, steps[..|steps| - 1], k);
    }
  }

  /** The calls a run made are those of the chunks that were streamed to it, and of its ending. */
  lemma {:induction false} CallsAreStreamed(loads: Loads, stored: Option<string>, steps: seq<Step>, k: nat)
    requires k < |History(loads, stored, steps).tasks|
    ensures CallsMatch(History(loads, stored, steps).tasks[k], Streamed(loads, stored, steps, k))
  {
    if steps != [] {
      var init, last := steps[..|steps| - 1], steps[|steps| - 1];
      var t := History(loads, stored, init);
      NewTasks(t, last);
      if k < |t.tasks| {
        CallsAreStreamed(loads, stored, init, k);
        MatchesNext(t, last, k, Streamed(loads, stored, init, k));
      } else {
        NotYetStreamed(loads, stored, init, k);
      }
    }
  }

  lemma {:induction false} MatchesNext(t: Thread, step: Step, k: nat, cs: seq<Chunk>)
    requires k < |t.tasks| && CallsMatch(t.tasks[k], cs)
    ensures k < |Next(t, step).tasks|
    ensures CallsMatch(Next(t, step).tasks[k],
                    cs + if step.StreamMessage? && step.k == k && Enabled(t, step) then [step.chunk] else [])
  {
    if RunInvariants.TaskStep(step) && step.k == k && Enabled(t, step) {
      EffectMatches(t, step, cs);
      RunInvariants.TaskStepIsEffect(t, step);
    } else {
      OtherStep(t, step, k);
      assert cs + [] == cs;
    }
  }

  // ---------------------------------------------------- which message is left open

  predicate Speaks(c: Chunk, id: string) { RoleOf(c).Some? && MessageId(c) == id }

  predicate Appeared(cs: seq<Chunk>, id: string) {
    exists p :: 0 <= p < |cs| && Speaks(cs[p], id)
  }

  /** The message that appeared last. */
  function Newest(cs: seq<Chunk>): Option<string> {
    if cs == [] then None
    else
      var init, last := cs[..|cs| - 1], cs[|cs| - 1];
      if RoleOf(last).Some? && !Appeared(init, MessageId(last)) then Some(MessageId(last)) else Newest(init)
  }

  /** The chunk carries usage under the message's own id. */
  predicate Reports(c: Chunk, id: string) {
    c.usage.Some? && Truthy(c.id) && c.id.value == id
  }

  /** Usage was reported for the message, with its first chunk or later. */
  predicate Reported(cs: seq<Chunk>, id: string) {
    exists p, q :: 0 <= p <= q < |cs| && Speaks(cs[p], id) && Reports(cs[q], id)
  }

  predicate LeavesOpen(cs: seq<Chunk>) {
    Newest(cs).Some? && !Reported(cs, Newest(cs).value)
  }

  lemma {:induction false} AppearedSnoc(cs: seq<Chunk>, c: Chunk, id: string)
    ensures Appeared(cs + [c], id) <==> Appeared(cs, id) || Speaks(c, id)
  {
    var all := cs + [c];
    if Appeared(cs, id) {
      var p :| 0 <= p < |cs| && Speaks(cs[p], id);
      assert Speaks(all[p], id);
    }
    if Speaks(c, id) { assert Speaks(all[|cs|], id); }
  }

  lemma {:induction false} ReportedSnoc(cs: seq<Chunk>, c: Chunk, id: string)
    ensures Reported(cs + [c], id) <==> Reported(cs, id) || (Appeared(cs + [c], id) && Reports(c, id))
  {
    var all := cs + [c];
    if Reported(cs, id) {
      var p, q :| 0 <= p <= q < |cs| && Speaks(cs[p], id) && Reports(cs[q], id);
      assert Speaks(all[p], id) && Reports(all[q], id);
    }
    if Appeared(all, id) && Reports(c, id) {
      var p :| 0 <= p < |all| && Speaks(all[p], id);
      assert Reports(all[|cs|], id);
    }
    if Reported(all, id) {
      var p, q :| 0 <= p <= q < |all| && Speaks(all[p], id) && Reports(all[q], id);
      if q < |cs| { assert Speaks(cs[p], id) && Reports(cs[q], id); }
    }
  }

  /** The ledger after one chunk's calls. */
  function EnterChunk(ledger: seq<Entry>, c: Chunk): seq<Entry> {
    var fed := Enter(ledger, Feed(c));
    if c.usage.Some? then Enter(fed, FinishMessage(c)) else fed
  }

  lemma {:induction false} LedgerOne(calls: seq<Call>, call: Call)
    ensures Ledger(calls + [call]) == Enter(Ledger(calls), call)
  {
    assert (calls + [call])[..|calls|] == calls;
  }

  lemma {:induction false} LedgerEnters(cs: seq<Chunk>, c: Chunk)
    ensures Ledger(CallsOf(cs + [c])) == EnterChunk(Ledger(CallsOf(cs)), c)
  {
    assert (cs + [c])[..|cs|] == cs;
    LedgerOne(CallsOf(cs), Feed(c));
    if c.usage.Some? {
      LedgerOne(CallsOf(cs) + [Feed(c)], FinishMessage(c));
      assert CallsOf(cs) + ([Feed(c)] + [FinishMessage(c)]) == CallsOf(cs) + [Feed(c)] + [FinishMessage(c)];
    } else {
      assert [Feed(c)] + [] == [Feed(c)];
    }
  }

  /** A chunk of a new message: it becomes the newest, open unless the chunk reports usage. */
  lemma {:induction false} EnterNew(ledger: seq<Entry>, c: Chunk)
    requires RoleOf(c).Some? && Position(ledger, MessageId(c)).None?
    ensures var l := EnterChunk(ledger, c);
      && l != [] && l[|l| - 1].id == MessageId(c)
      && (l[|l| - 1].closed <==> Reports(c, MessageId(c)))
  {
    var e := Entry(MessageId(c), RoleOf(c).value, [c], None, false);
    var fed := CloseAll(ledger) + [e];
    assert Enter(ledger, Feed(c)) == fed;
    if c.usage.Some? && Truthy(c.id) {
      assert Position(fed, c.id.value) == Some(|fed| - 1);
    }
  }

  /** Any other chunk: the newest stays, and is closed if the chunk reports its usage. */
  lemma {:induction false} EnterOld(ledger: seq<Entry>, c: Chunk)
    requires Sequential(ledger) && (RoleOf(c).Some? ==> Position(ledger, MessageId(c)).Some?)
    ensures var l := EnterChunk(ledger, c);
      && |l| == |ledger|
      && (l != [] ==>
            && l[|l| - 1].id == ledger[|l| - 1].id
            && (l[|l| - 1].closed <==> ledger[|l| - 1].closed || Reports(c, l[|l| - 1].id)))
  {
    FedOld(ledger, c);
    FinishedOld(Enter(ledger, Feed(c)), c);
  }

  lemma {:induction false} FedOld(ledger: seq<Entry>, c: Chunk)
    requires Sequential(ledger) && (RoleOf(c).Some? ==> Position(ledger, MessageId(c)).Some?)
    ensures var l := Enter(ledger, Feed(c));
      && |l| == |ledger| && Sequential(l)
      && forall k :: 0 <= k < |l| ==> l[k].id == ledger[k].id && l[k].closed == ledger[k].closed
  {
  }

  lemma {:induction false} FinishedOld(ledger: seq<Entry>, c: Chunk)
    requires Sequential(ledger)
    ensures var l := Enter(ledger, FinishMessage(c));
      && |l| == |ledger|
      && (l != [] ==>
            && l[|l| - 1].id == ledger[|l| - 1].id
            && (l[|l| - 1].closed <==>
                  ledger[|l| - 1].closed || (Truthy(c.id) && c.id.value == l[|l| - 1].id)))
  {
  }

  /** The newest message of the ledger is the newest of the chunks, closed once its usage was reported. */
  ghost predicate NewestIs(ledger: seq<Entry>, cs: seq<Chunk>) {
    && (ledger == [] <==> Newest(cs).None?)
    && (ledger != [] ==>
          && Newest(cs) == Some(ledger[|ledger| - 1].id) && Appeared(cs, ledger[|ledger| - 1].id)
          && (ledger[|ledger| - 1].closed <==> Reported(cs, ledger[|ledger| - 1].id)))
  }

  lemma {:induction false} NewestSnoc(ledger: seq<Entry>, cs: seq<Chunk>, c: Chunk)
    requires Sequential(ledger) && NewestIs(ledger, cs)
    requires RoleOf(c).Some? ==> (Position(ledger, MessageId(c)).Some? <==> Appeared(cs, MessageId(c)))
    ensures NewestIs(EnterChunk(ledger, c), cs + [c])
  {
    assert (cs + [c])[..|cs|] == cs;
    if RoleOf(c).Some? && !Appeared(cs, MessageId(c)) {
      EnterNew(ledger, c);
      AppearedSnoc(cs, c, MessageId(c));
      ReportedSnoc(cs, c, MessageId(c));
      NothingReported(cs, MessageId(c));
    } else {
      EnterOld(ledger, c);
      if ledger != [] {
        AppearedSnoc(cs, c, ledger[|ledger| - 1].id);
        ReportedSnoc(cs, c, ledger[|ledger| - 1].id);
      }
    }
  }

  lemma {:induction false} NothingReported(cs: seq<Chunk>, id: string)
    requires !Appeared(cs, id)
    ensures !Reported(cs, id)
  {
  }

  lemma {:induction false} KnownIffAppeared(cs: seq<Chunk>, id: string)
    ensures Position(Ledger(CallsOf(cs)), id).Some? <==> Appeared(cs, id)
  {
    if cs != [] {
      var init, c := cs[..|cs| - 1], cs[|cs| - 1];
      assert init + [c] == cs;
      KnownIffAppeared(init, id);
      LedgerEnters(init, c);
      AppearedSnoc(init, c, id);
      SequentialLedger(CallsOf(init));
      SequentialLedger(CallsOf(init) + [Feed(c)]);
      LedgerOne(CallsOf(init), Feed(c));
      EnterStatus(Ledger(CallsOf(init)), Feed(c), id);
      EnterStatus(Enter(Ledger(CallsOf(init)), Feed(c)), FinishMessage(c), id);
    }
  }

  lemma {:induction false} SequentialLedger(calls: seq<Call>)
    ensures Sequential(Ledger(calls))
  {
    LedgerSequential(_ => None, calls);
  }

  lemma {:induction false} NewestOfChunks(cs: seq<Chunk>)
    ensures NewestIs(Ledger(CallsOf(cs)), cs)
  {
    if cs != [] {
      var k := |cs| - 1;
      assert cs[..k] + [cs[k]] == cs;
      NewestOfChunks(cs[..k]);
      SequentialLedger(CallsOf(cs[..k]));
      KnownIffAppeared(cs[..k], MessageId(cs[k]));
      NewestSnoc(Ledger(CallsOf(cs[..k])), cs[..k], cs[k]);
      LedgerEnters(cs[..k], cs[k]);
    }
  }

  /**
   Exactly when an interrupted run leaves a message open, said of the chunks
   streamed to it: some message appeared, and no usage was ever reported for
   the newest one under its id. Then one finish is missing, otherwise none.
   */
  lemma {:induction false} LeftOpenIff(loads: Loads, stored: Option<string>, steps: seq<Step>, k: nat)
    requires k < |History(loads, stored, steps).tasks|
    requires var stage := History(loads, stored, steps).tasks[k].stage; stage.Ended? && stage.ending.AwaitingInput?
    ensures var fs := RunInvariants.FramesIn(History(loads, stored, steps).tasks[k].body);
      Starts(fs) == Finishes(fs) + if LeavesOpen(Streamed(loads, stored, steps, k)) then 1 else 0
  {
    var cs := Streamed(loads, stored, steps, k);
    BalancedMessages(loads, stored, steps, k);
    CallsAreStreamed(loads, stored, steps, k);
    assert CallsOf(cs) + [] == CallsOf(cs);
    NewestOfChunks(cs);
  }

  // -------------------------------------------------------------- a run that does

  /** A first run, resolved and taking its first step. */
  lemma {:induction false} FirstRun(loads: Loads, stored: Option<string>, steps: seq<Step>)
    requires |steps| >= 3 && steps[0] == StartRun(0, "agent", false, NO_PARAMS) && steps[1] == Resolved(0) && steps[2] == FirstStep(0)
    ensures var t := History(loads, stored, steps[..3]);
      t.tasks == [NewTask(loads, 0, "agent", None).(stage := Streaming)]
  {
    FirstDispatch(loads, stored, steps);
    AfterLast(NewThread(loads, stored), steps, 2);
  }

  lemma {:induction false} StreamedLast(loads: Loads, stored: Option<string>, steps: seq<Step>, i: nat, k: nat)
    requires i < |steps|
    ensures Streamed(loads, stored, steps[..i + 1], k) ==
            Streamed(loads, stored, steps[..i], k) +
            if steps[i].StreamMessage? && steps[i].k == k && Enabled(History(loads, stored, steps[..i]), steps[i])
            then [steps[i].chunk] else []
  {
    assert steps[..i + 1][..i] == steps[..i];
  }

  lemma {:induction false} OneChunk(loads: Loads, stored: Option<string>, steps: seq<Step>, c: Chunk)
    requires |steps| == 5 && steps[3] == StreamMessage(0, c) && steps[4].EndOfStream?
    requires At(History(loads, stored, steps[..3]), 0, Streaming)
    requires Streamed(loads, stored, steps[..3], 0) == []
    ensures Streamed(loads, stored, steps, 0) == [c]
  {
    StreamedLast(loads, stored, steps, 3, 0);
    StreamedLast(loads, stored, steps, 4, 0);
    assert steps[..5] == steps;
    assert [] + [c] + [] == [c];
  }

  lemma {:induction false} ChunkThenInterrupt(loads: Loads, stored: Option<string>, steps: seq<Step>, c: Chunk, s: Snapshot)
    requires |steps| == 5 && steps[3] == StreamMessage(0, c) && steps[4] == EndOfStream(0, s)
    requires var t := History(loads, stored, steps[..3]);
             |t.tasks| == 1 && t.tasks[0].stage.Streaming? && t.tasks[0].lastValues.None?
    requires |s.interrupts| == 1 && InterruptId(s.interrupts[0]) != "assistant_id"
    ensures var t := History(loads, stored, steps);
      |t.tasks| == 1 && t.tasks[0].stage.Ended? && t.tasks[0].stage.ending.AwaitingInput?
  {
    AfterLast(NewThread(loads, stored), steps, 3);
    AfterLast(NewThread(loads, stored), steps, 4);
    assert steps[..5] == steps;
    var t := History(loads, stored, steps[..3]);
    StreamsOne(t, c);
    Interrupts(Next(t, steps[3]), s);
  }

  lemma {:induction false} StreamsOne(t: Thread, c: Chunk)
    requires |t.tasks| == 1 && t.tasks[0].stage.Streaming? && t.tasks[0].lastValues.None?
    ensures var t' := Next(t, StreamMessage(0, c));
      |t'.tasks| == 1 && t'.tasks[0].stage.Streaming? && t'.tasks[0].lastValues.None?
  {
  }

  lemma {:induction false} Interrupts(t: Thread, s: Snapshot)
    requires |t.tasks| == 1 && t.tasks[0].stage.Streaming? && t.tasks[0].lastValues.None?
    requires |s.interrupts| == 1 && InterruptId(s.interrupts[0]) != "assistant_id"
    ensures var t' := Next(t, EndOfStream(0, s));
      |t'.tasks| == 1 && t'.tasks[0].stage.Ended? && t'.tasks[0].stage.ending.AwaitingInput?
  {
    var interrupts := Outcome(t.tasks[0], s);
    assert interrupts == [Interrupt(InterruptId(s.interrupts[0]), s.interrupts[0].value)];
    assert Enabled(t, EndOfStream(0, s));
  }

  /** Nothing was streamed by the steps that get a run going. */
  lemma {:induction false} NothingStreamed(loads: Loads, stored: Option<string>, steps: seq<Step>, k: nat)
    requires forall i :: 0 <= i < |steps| ==> !steps[i].StreamMessage?
    ensures Streamed(loads, stored, steps, k) == []
  {
    if steps != [] {
      NothingStreamed(loads, stored, steps[..|steps| - 1], k);
    }
  }

  /**
   The case: a run whose one chunk reports no usage, and whose graph then
   interrupts, has started a message that it never finishes.
   */
  lemma {:induction false} InterruptLeavesOpen(loads: Loads, stored: Option<string>, c: Chunk, s: Snapshot)
    requires RoleOf(c).Some? && c.usage.None?
    requires |s.interrupts| == 1 && InterruptId(s.interrupts[0]) != "assistant_id"
    ensures var t := History(loads, stored,
        [StartRun(0, "agent", false, NO_PARAMS), Resolved(0), FirstStep(0), StreamMessage(0, c), EndOfStream(0, s)]);
      && |t.tasks| == 1 && t.tasks[0].stage.Ended? && t.tasks[0].stage.ending.AwaitingInput?
      && Starts(RunInvariants.FramesIn(t.tasks[0].body)) == Finishes(RunInvariants.FramesIn(t.tasks[0].body)) + 1
  {
    var steps := [StartRun(0, "agent", false, NO_PARAMS), Resolved(0), FirstStep(0), StreamMessage(0, c), EndOfStream(0, s)];
    FirstRun(loads, stored, steps);
    NothingStreamed(loads, stored, steps[..3], 0);
    OneChunk(loads, stored, steps, c);
    ChunkThenInterrupt(loads, stored, steps, c, s);
    LeftOpenIff(loads, stored, steps, 0);
    OneSilentChunk(c);
  }

  lemma {:induction false} OneSilentChunk(c: Chunk)
    requires RoleOf(c).Some? && c.usage.None?
    ensures LeavesOpen([c])
  {
    assert [c][..0] == [];
    assert Newest([c]) == Some(MessageId(c));
  }
}
