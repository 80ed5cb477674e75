/** The message frames a run publishes: what a client reads from them, and that they balance. */
module RunMessages {
  import opened Options
  import opened Json
  import opened Translation
  import opened Frames
  import opened RoundTrip
  import Runs
  import RunInvariants
  import RunGuarantees

  function Starts(fs: seq<Frame>): nat {
    if fs == [] then 0 else Starts(fs[..|fs| - 1]) + if fs[|fs| - 1].MessageStart? then 1 else 0
  }

  function Finishes(fs: seq<Frame>): nat {
    if fs == [] then 0 else Finishes(fs[..|fs| - 1]) + if fs[|fs| - 1].MessageFinish? then 1 else 0
  }

  function FinishedReadings(rs: seq<Reading>): nat {
    if rs == [] then 0 else FinishedReadings(rs[..|rs| - 1]) + if rs[|rs| - 1].finished then 1 else 0
  }

  lemma {:induction false} ReadCounts(rs: seq<Reading>, f: Frame)
    requires Read(rs, f).Some?
    ensures var rs' := Read(rs, f).value;
      && |rs'| == |rs| + (if f.MessageStart? then 1 else 0)
      && FinishedReadings(rs') == FinishedReadings(rs) + (if f.MessageFinish? then 1 else 0)
  {
    var rs' := Read(rs, f).value;
    if f.MessageStart? {
      assert rs'[..|rs|] == rs;
    } else {
      assert rs'[..|rs| - 1] == rs[..|rs| - 1];
    }
  }

  lemma {:induction false} ReadAllCounts(fs: seq<Frame>)
    requires ReadAll([], fs).Some?
    ensures Starts(fs) == |ReadAll([], fs).value| && Finishes(fs) == FinishedReadings(ReadAll([], fs).value)
  {
    if fs != [] {
      ReadAllCounts(fs[..|fs| - 1]);
      ReadCounts(ReadAll([], fs[..|fs| - 1]).value, fs[|fs| - 1]);
    }
  }

  lemma {:induction false} AllFinishedCount(rs: seq<Reading>)
    requires forall k :: 0 <= k < |rs| ==> rs[k].finished
    ensures FinishedReadings(rs) == |rs|
  {
    if rs != [] {
      AllFinishedCount(rs[..|rs| - 1]);
    }
  }

  lemma {:induction false} BodyReads(task: Runs.Task)
    requires RunInvariants.TaskInv(task)
    ensures ReadAll([], RunInvariants.FramesIn(task.body)) == Some(Meanings(task.translator.loads, Ledger(task.calls)))
    ensures Related(task.translator.open, Ledger(task.calls))
  {
    ApplyAllRelated(task.translator.loads, task.calls);
  }

  lemma {:induction false} AllButLastClosed(task: Runs.Task)
    requires RunInvariants.TaskInv(task)
    ensures forall k :: 0 <= k < |Ledger(task.calls)| - 1 ==> Ledger(task.calls)[k].closed
    ensures task.stage.Ended? && !task.stage.ending.AwaitingInput? ==>
              forall k :: 0 <= k < |Ledger(task.calls)| ==> Ledger(task.calls)[k].closed
  {
    BodyReads(task);
    AreAligned(task.translator.open, Ledger(task.calls));
  }

  /** All messages finished but perhaps the last. */
  lemma {:induction false} CountFinished(rs: seq<Reading>)
    requires forall k :: 0 <= k < |rs| - 1 ==> rs[k].finished
    ensures FinishedReadings(rs) == |rs| - if rs != [] && !rs[|rs| - 1].finished then 1 else 0
  {
    if rs != [] {
      AllFinishedCount(rs[..|rs| - 1]);
    }
  }

  /** The newest message has started and not finished. */
  predicate LastOpen(ledger: seq<Entry>) {
    ledger != [] && !ledger[|ledger| - 1].closed
  }

  lemma {:induction false} MeaningsFinished(loads: Loads, ledger: seq<Entry>)
    ensures |Meanings(loads, ledger)| == |ledger|
    ensures forall k :: 0 <= k < |ledger| ==> Meanings(loads, ledger)[k].finished == ledger[k].closed
  {
  }

  /** The frames of a run lack a finish exactly when its newest message is not closed, and then one. */
  lemma {:induction false} Balanced(task: Runs.Task)
    requires RunInvariants.TaskInv(task)
    ensures var fs := RunInvariants.FramesIn(task.body);
      Starts(fs) == Finishes(fs) + if LastOpen(Ledger(task.calls)) then 1 else 0
  {
    BodyReads(task);
    AllButLastClosed(task);
    MeaningsFinished(task.translator.loads, Ledger(task.calls));
    ReadAllCounts(RunInvariants.FramesIn(task.body));
    CountFinished(Meanings(task.translator.loads, Ledger(task.calls)));
  }

  /**
   Balanced messages: in every run's block a client reading only the frames
   gets the meaning of what was fed to the translator; there are as many
   message finishes as starts, but for the newest message while it is open, and
   a block that ends completed, failed or cancelled leaves none open.
   */
  lemma {:induction false} BalancedMessages(loads: Loads, stored: Option<string>, steps: seq<Runs.Step>, k: nat)
    requires k < |RunGuarantees.History(loads, stored, steps).tasks|
    ensures var task := RunGuarantees.History(loads, stored, steps).tasks[k]; var fs := RunInvariants.FramesIn(task.body);
      && ReadAll([], fs) == Some(Meanings(task.translator.loads, Ledger(task.calls)))
      && Starts(fs) == Finishes(fs) + (if LastOpen(Ledger(task.calls)) then 1 else 0)
      && (task.stage.Ended? && !task.stage.ending.AwaitingInput? ==> Starts(fs) == Finishes(fs))
  {
    var task := RunGuarantees.History(loads, stored, steps).tasks[k];
    RunGuarantees.HistoryInv(loads, stored, steps);
    BodyReads(task);
    Balanced(task);
    AllButLastClosed(task);
  }
}
