/** What the run manager promises on one thread, over every interleaving of its steps. */
module RunGuarantees {
  import opened Options
  import Json
  import opened Translation
  import opened RunConfigs
  import opened Runs
  import opened RunInvariants

  /** The thread after any history of this process. */
  ghost function History(loads: Json.Loads, stored: Option<string>, steps: seq<Step>): Thread {
    After(NewThread(loads, stored), steps)
  }

  lemma {:induction false} HistoryInv(loads: Json.Loads, stored: Option<string>, steps: seq<Step>)
    ensures Inv(History(loads, stored, steps))
  {
    NewThreadInv(loads, stored);
    Reachable(NewThread(loads, stored), steps);
  }

  lemma {:induction false} AfterLast(t: Thread, steps: seq<Step>, n: nat)
    requires n < |steps|
    ensures After(t, steps[..n + 1]) == Next(After(t, steps[..n]), steps[n])
  {
    assert steps[..n + 1][..n] == steps[..n];
  }

  /** The first run of a thread, dispatched. */
  lemma {:induction false} FirstDispatch(loads: Json.Loads, stored: Option<string>, steps: seq<Step>)
    requires |steps| >= 2 && steps[0] == StartRun(0, "agent", false, NO_PARAMS) && steps[1] == Resolved(0)
    ensures var t := History(loads, stored, steps[..2]);
      t.tasks == [NewTask(loads, 0, "agent", None)] && t.active == Some(Occupied(0)) && t.log == []
  {
    var t0 := NewThread(loads, stored);
    assert steps[..0] == [];
    AfterLast(t0, steps, 0);
    AfterLast(t0, steps, 1);
    var t1 := Next(t0, steps[0]);
    assert t1.resolving == map[0 := Start("agent", false, None, NO_PARAMS)];
  }

  // ---------------------------------------------------------- single live run

  function LiveRuns(t: Thread): set<nat> {
    set k | 0 <= k < |t.tasks| && !t.tasks[k].Done()
  }

  lemma {:induction false} LiveRunsAre(t: Thread)
    requires SlotInv(t)
    ensures LiveRuns(t) == match t.active
                           case Some(Occupied(k)) => if t.tasks[k].Done() then {} else {k}
                           case _ => {}
  {
  }

  lemma {:induction false} SingleLive(t: Thread)
    requires SlotInv(t)
    ensures |Reservations(t)| + |LiveRuns(t)| <= 1
    ensures forall run <- Reservations(t) :: t.active == Some(Reserved(run))
    ensures forall k <- LiveRuns(t) :: t.active == Some(Occupied(k))
    ensures Busy(t) <==> Reservations(t) != {} || LiveRuns(t) != {}
  {
    LiveRunsAre(t);
    match t.active {
      case None =>
      case Some(Reserved(run)) => assert Reservations(t) == {run} && LiveRuns(t) == {};
      case Some(Occupied(k)) => assert Reservations(t) == {};
    }
  }

  /**
   Unresolved reservations and unfinished tasks together are never more than
   one, and `_active` then holds that very record; the busy guard is exactly that.
   */
  lemma {:induction false} SingleLiveRun(loads: Json.Loads, stored: Option<string>, steps: seq<Step>)
    ensures var t := History(loads, stored, steps);
      && |Reservations(t)| + |LiveRuns(t)| <= 1
      && (forall run <- Reservations(t) :: t.active == Some(Reserved(run)))
      && (forall k <- LiveRuns(t) :: t.active == Some(Occupied(k)))
      && (Busy(t) <==> Reservations(t) != {} || LiveRuns(t) != {})
  {
    HistoryInv(loads, stored, steps);
    SingleLive(History(loads, stored, steps));
  }

  lemma {:induction false} CallbackFrees(t: Thread, k: nat)
    requires SlotInv(t) && k in t.callbacks
    ensures Next(t, DoneCallback(k)).active ==
            if Reservations(t) == {} && k + 1 == |t.tasks| then None else t.active
  {
  }

  /** A done-callback frees the slot exactly when nothing newer than its run has reserved or started. */
  lemma {:induction false} StaleCallback(loads: Json.Loads, stored: Option<string>, steps: seq<Step>, k: nat)
    requires k in History(loads, stored, steps).callbacks
    ensures var t := History(loads, stored, steps);
      Next(t, DoneCallback(k)).active ==
        if Reservations(t) == {} && k + 1 == |t.tasks| then None else t.active
  {
    HistoryInv(loads, stored, steps);
    CallbackFrees(History(loads, stored, steps), k);
  }

  // ------------------------------------------------------- abandoned starts

  /** The step is taken, and leaves `start` where no handler releases the slot. */
  ghost predicate Abandons(t: Thread, step: Step) {
    (step.StartCancelled? || step.MergeRaised?) && Enabled(t, step)
  }

  ghost predicate AbandonedAt(loads: Json.Loads, stored: Option<string>, steps: seq<Step>, i: int) {
    0 <= i < |steps| && Abandons(History(loads, stored, steps[..i]), steps[i])
  }

  lemma {:induction false} AbandonedStep(t: Thread, step: Step)
    ensures Next(t, step).abandoned != {} <==> t.abandoned != {} || Abandons(t, step)
  {
    if Enabled(t, step) && (step.StartCancelled? || step.MergeRaised?) {
      assert step.run in Next(t, step).abandoned;
    }
  }

  lemma {:induction false} AbandonedIff(loads: Json.Loads, stored: Option<string>, steps: seq<Step>)
    ensures History(loads, stored, steps).abandoned != {} <==> exists i :: AbandonedAt(loads, stored, steps, i)
  {
    if steps != [] {
      var k := |steps| - 1;
      AbandonedIff(loads, stored, steps[..k]);
      AbandonedStep(History(loads, stored, steps[..k]), steps[k]);
      AbandonedSooner(loads, stored, steps, k);
    }
  }

  lemma {:induction false} AbandonedSooner(loads: Json.Loads, stored: Option<string>, steps: seq<Step>, k: nat)
    requires k + 1 == |steps|
    ensures (exists i :: AbandonedAt(loads, stored, steps, i)) <==>
            (exists i :: AbandonedAt(loads, stored, steps[..k], i)) || Abandons(History(loads, stored, steps[..k]), steps[k])
  {
    forall i | 0 <= i < k
      ensures AbandonedAt(loads, stored, steps, i) <==> AbandonedAt(loads, stored, steps[..k], i)
    {
      assert steps[..k][..i] == steps[..i];
    }
    assert Abandons(History(loads, stored, steps[..k]), steps[k]) <==> AbandonedAt(loads, stored, steps, k);
  }

  /** The step reserves the run: a start with these parameters, or a response, which has none. */
  ghost predicate Begins(t: Thread, step: Step, run: RunId, params: Params) {
    && (step.StartRun? || step.Respond? || step.RouterRespond?) && step.run == run
    && params == (if step.StartRun? then step.params else NO_PARAMS)
    && run !in t.resolving && run in Next(t, step).resolving
  }

  ghost predicate BeganAt(loads: Json.Loads, stored: Option<string>, steps: seq<Step>, i: int, run: RunId, params: Params) {
    0 <= i < |steps| && Begins(History(loads, stored, steps[..i]), steps[i], run, params)
  }

  lemma {:induction false} ResolvingStep(t: Thread, step: Step, run: RunId)
    requires Inv(t) && run in Next(t, step).resolving
    ensures (run in t.resolving && t.resolving[run] == Next(t, step).resolving[run])
            || Begins(t, step, run, Next(t, step).resolving[run].params)
  {
    if TaskStep(step) && Enabled(t, step) { TaskStepIsEffect(t, step); }
  }

  /** A suspended start carries the parameters it was made with. */
  lemma {:induction false} SuspendedBegan(loads: Json.Loads, stored: Option<string>, steps: seq<Step>, run: RunId)
    requires run in History(loads, stored, steps).resolving
    ensures exists i :: BeganAt(loads, stored, steps, i, run, History(loads, stored, steps).resolving[run].params)
  {
    if steps != [] {
      var k := |steps| - 1;
      var before := History(loads, stored, steps[..k]);
      var params := History(loads, stored, steps).resolving[run].params;
      HistoryInv(loads, stored, steps[..k]);
      ResolvingStep(before, steps[k], run);
      if run in before.resolving && before.resolving[run].params == params {
        SuspendedBegan(loads, stored, steps[..k], run);
        var i :| BeganAt(loads, stored, steps[..k], i, run, params);
        assert steps[..k][..i] == steps[..i];
        assert BeganAt(loads, stored, steps, i, run, params);
      } else {
        assert BeganAt(loads, stored, steps, k, run, params);
      }
    }
  }

  /** At step `i` a start is cancelled while its graph resolves. */
  ghost predicate CancelledAt(loads: Json.Loads, stored: Option<string>, steps: seq<Step>, i: int) {
    0 <= i < |steps| && steps[i].StartCancelled? && steps[i].run in History(loads, stored, steps[..i]).resolving
  }

  /** A start made at step `i` with parameters that cannot be merged has its graph at step `j`. */
  ghost predicate RaisedAt(loads: Json.Loads, stored: Option<string>, steps: seq<Step>, i: int, j: int) {
    && 0 <= i < j < |steps| && steps[i].StartRun? && !Mergeable(steps[i].params)
    && BeganAt(loads, stored, steps, i, steps[i].run, steps[i].params)
    && steps[j] == MergeRaised(steps[i].run) && Enabled(History(loads, stored, steps[..j]), steps[j])
  }

  /** Every way to abandon a start is one of the two. */
  lemma {:induction false} AbandonedHow(loads: Json.Loads, stored: Option<string>, steps: seq<Step>, j: int)
    requires AbandonedAt(loads, stored, steps, j)
    ensures CancelledAt(loads, stored, steps, j) || exists i :: RaisedAt(loads, stored, steps, i, j)
  {
    if steps[j].MergeRaised? {
      var t := History(loads, stored, steps[..j]);
      SuspendedBegan(loads, stored, steps[..j], steps[j].run);
      var params := t.resolving[steps[j].run].params;
      var i :| BeganAt(loads, stored, steps[..j], i, steps[j].run, params);
      assert steps[..j][..i] == steps[..i];
      assert Mergeable(NO_PARAMS);
      assert RaisedAt(loads, stored, steps, i, j);
    }
  }

  /**
   With nothing resolving, running or queued the slot is free exactly when no
   start was cancelled while its graph resolved, and no start whose parameters
   cannot be merged had its graph resolved.
   */
  lemma {:induction false} IdleIsFree(loads: Json.Loads, stored: Option<string>, steps: seq<Step>)
    requires var t := History(loads, stored, steps);
             t.resolving == map[] && LiveRuns(t) == {} && t.callbacks == {}
    ensures History(loads, stored, steps).active == None <==>
            && (forall i :: !CancelledAt(loads, stored, steps, i))
            && (forall i, j :: !RaisedAt(loads, stored, steps, i, j))
  {
    HistoryInv(loads, stored, steps);
    LiveRunsAre(History(loads, stored, steps));
    AbandonedCauses(loads, stored, steps);
    IdleAbandoned(History(loads, stored, steps));
  }

  lemma {:induction false} IdleAbandoned(t: Thread)
    requires SlotInv(t) && t.resolving == map[] && LiveRuns(t) == {} && t.callbacks == {}
    ensures t.active == None <==> t.abandoned == {}
  {
    LiveRunsAre(t);
  }

  /** A start is abandoned exactly when it is cancelled while resolving, or its parameters cannot be merged. */
  lemma {:induction false} AbandonedCauses(loads: Json.Loads, stored: Option<string>, steps: seq<Step>)
    ensures History(loads, stored, steps).abandoned != {} <==>
            || (exists i :: CancelledAt(loads, stored, steps, i))
            || (exists i, j :: RaisedAt(loads, stored, steps, i, j))
  {
    AbandonedIff(loads, stored, steps);
    if j :| AbandonedAt(loads, stored, steps, j) {
      AbandonedHow(loads, stored, steps, j);
    }
    if i :| CancelledAt(loads, stored, steps, i) {
      assert AbandonedAt(loads, stored, steps, i);
    }
    if i, j :| RaisedAt(loads, stored, steps, i, j) {
      assert AbandonedAt(loads, stored, steps, j);
    }
  }

  lemma {:induction false} TwoSteps(t: Thread, first: Step, second: Step)
    ensures After(t, [first, second]) == Next(Next(t, first), second)
  {
    var both := [first, second];
    AfterLast(t, both, 0);
    AfterLast(t, both, 1);
    assert both[..0] == [] && both[..2] == both;
  }

  /** The documented release of a failed start does not happen when it fails by cancellation. */
  lemma {:induction false} CancelledStartKeepsSlot(loads: Json.Loads, stored: Option<string>)
    ensures var t := History(loads, stored, [StartRun(0, "a", false, NO_PARAMS), StartCancelled(0)]);
      t.active == Some(Reserved(0)) && t.resolving == map[] && t.tasks == [] && t.callbacks == {}
  {
    TwoSteps(NewThread(loads, stored), StartRun(0, "a", false, NO_PARAMS), StartCancelled(0));
  }

  /** Nor when its metadata is a list, or the metadata in its config is null. */
  function BadParams(): seq<Params> {
    [Params(map["configurable" := Json.Obj([])], Json.Arr([Json.Str("x")])),
     Params(map["configurable" := Json.Obj([]), "metadata" := Json.Null], Json.Obj([("a", Json.Number(1.0))]))]
  }

  lemma {:induction false} BadParamsKeepSlot(loads: Json.Loads, stored: Option<string>, params: Params)
    requires params in BadParams()
    ensures var t := History(loads, stored, [StartRun(0, "a", true, params), MergeRaised(0)]);
      t.active == Some(Reserved(0)) && t.resolving == map[] && t.tasks == [] && t.callbacks == {}
  {
    assert params == BadParams()[0] || params == BadParams()[1];
    TwoSteps(NewThread(loads, stored), StartRun(0, "a", true, params), MergeRaised(0));
    var t1 := Next(NewThread(loads, stored), StartRun(0, "a", true, params));
    assert t1.resolving == map[0 := Start("a", true, None, params)];
    assert !Mergeable(params);
  }

  /** The start is reserved with parameters that cannot be merged, or already gone, and was never dispatched. */
  ghost predicate Doomed(t: Thread, run: RunId) {
    && run in t.used && (run in t.resolving ==> !Mergeable(t.resolving[run].params))
    && forall k :: 0 <= k < |t.tasks| ==> t.tasks[k].run != run
  }

  lemma {:induction false} DoomedStep(t: Thread, run: RunId, step: Step)
    requires Doomed(t, run)
    ensures Doomed(Next(t, step), run)
  {
    if TaskStep(step) && Enabled(t, step) {
      TaskStepIsEffect(t, step);
      assert EffectOf(t, step).task.run == t.tasks[step.k].run;
    }
  }

  /** Parameters that cannot be merged never become a run, however their start goes on. */
  lemma {:induction false} BadParamsNeverRun(t: Thread, run: RunId, steps: seq<Step>)
    requires Doomed(t, run)
    ensures forall k :: 0 <= k < |After(t, steps).tasks| ==> After(t, steps).tasks[k].run != run
    ensures Doomed(After(t, steps), run)
  {
    if steps != [] {
      BadParamsNeverRun(t, run, steps[..|steps| - 1]);
      DoomedStep(After(t, steps[..|steps| - 1]), run, steps[|steps| - 1]);
    }
  }

  /** Once a start is abandoned its thread stays busy: it never runs or publishes anything again. */
  lemma {:induction false} AbandonedForever(t: Thread, steps: seq<Step>)
    requires Inv(t) && t.abandoned != {}
    ensures var t' := After(t, steps); Busy(t') && t'.active == t.active && SameRuns(t, t') && t'.abandoned == t.abandoned
  {
    AbandonedIsBusy(t);
    if steps != [] {
      var before := After(t, steps[..|steps| - 1]);
      AbandonedForever(t, steps[..|steps| - 1]);
      Reachable(t, steps[..|steps| - 1]);
      AbandonedIsBusy(before);
      HeldSlotStep(before, steps[|steps| - 1]);
    }
  }

  lemma {:induction false} AbandonedIsBusy(t: Thread)
    requires SlotInv(t) && t.abandoned != {}
    ensures Busy(t) && t.active.value.Reserved? && t.resolving == map[] && LiveRuns(t) == {}
  {
    var run := AnyMember(t.abandoned);
    assert run in Reservations(t);
    LiveRunsAre(t);
    assert t.resolving.Keys <= Reservations(t) == {run};
    assert t.resolving.Keys == {};
  }

  /** While a reservation stands and no start of it moves, nothing on the thread happens. */
  lemma {:induction false} HeldSlotStep(t: Thread, step: Step)
    requires SlotInv(t) && t.active.Some? && t.active.value.Reserved?
    requires !(step.Resolved? && Enabled(t, step))
    ensures SameRuns(t, Next(t, step))
    ensures !((step.ResolveFailed? || step.StartCancelled? || step.MergeRaised?) && Enabled(t, step)) ==>
              Next(t, step).active == t.active && Next(t, step).abandoned == t.abandoned
              && Next(t, step).resolving == t.resolving
  {
    assert Busy(t);
  }
}
