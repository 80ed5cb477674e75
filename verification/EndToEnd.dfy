/**
 The whole path: what graphs stream into runs, through translators, the hub's
 log, its ring and queues, and a client's cursor, to what that client reads.
 The run manager and the hub are stepped together, so clients come and go
 between any two steps of any run.
 */
module EndToEnd {
  import opened Options
  import opened Json
  import opened Selecting
  import opened Hub
  import Delivery
  import Handoff
  import opened Runs
  import opened RunInvariants
  import opened RunGuarantees
  import opened Execution
  import RunMessages
  import RoundTrip
  import Frames

  /** A step of the run manager's thread, or of a client of its hub. */
  datatype Action = Run(step: Step) | Client(request: Delivery.Step<Event>)

  function RunSteps(actions: seq<Action>): seq<Step> {
    if actions == [] then []
    else RunSteps(actions[..|actions| - 1]) +
         if actions[|actions| - 1].Run? then [actions[|actions| - 1].step] else []
  }

  function Publishes(es: seq<Event>): seq<Delivery.Step<Event>> {
    seq(|es|, i requires 0 <= i < |es| => Delivery.Publish(MethodOf(es[i]), [], es[i]))
  }

  /** What a step of the thread publishes. */
  ghost function NewEvents(t: Thread, step: Step): seq<Event> {
    if |t.log| <= |Next(t, step).log| then Next(t, step).log[|t.log|..] else []
  }

  /** Only runs publish on the hub; clients subscribe, read and leave. */
  ghost function HubSteps(loads: Loads, stored: Option<string>, actions: seq<Action>): seq<Delivery.Step<Event>> {
    if actions == [] then []
    else
      var init, last := actions[..|actions| - 1], actions[|actions| - 1];
      HubSteps(loads, stored, init) +
      match last
      case Run(step) => Publishes(NewEvents(History(loads, stored, RunSteps(init)), step))
      case Client(step) => if step.Publish? then [] else [step]
  }

  ghost function HubAfter(
    size: nat, loads: Loads, stored: Option<string>, actions: seq<Action>): Delivery.System<Event>
  {
    Delivery.After(Delivery.Empty(size), HubSteps(loads, stored, actions))
  }

  ghost function ThreadAfter(loads: Loads, stored: Option<string>, actions: seq<Action>): Thread {
    History(loads, stored, RunSteps(actions))
  }

  // ----------------------------------------- the hub's log is the thread's log

  lemma {:induction false} OneTaskStepLogs(t: Thread, step: Step)
    requires Enabled(t, step) && TaskStep(step)
    ensures Next(t, step).log == t.log + NewEvents(t, step)
  {
    TaskStepIsEffect(t, step);
  }

  lemma {:induction false} LogGrows(t: Thread, step: Step)
    ensures Next(t, step).log == t.log + NewEvents(t, step)
  {
    if Enabled(t, step) && TaskStep(step) {
      OneTaskStepLogs(t, step);
    } else {
      assert Next(t, step).log == t.log;
      assert t.log + [] == t.log && t.log[|t.log|..] == [];
    }
  }

  lemma {:induction false} PublishOne(s: Delivery.System<Event>, e: Event)
    requires WellNamed(s.log)
    ensures var s' := Delivery.Next(s, Delivery.Publish(MethodOf(e), [], e));
      WellNamed(s'.log) && Payloads(s'.log) == Payloads(s.log) + [e]
  {
    var last := Envelope(|s.log| + 1, MethodOf(e), [], e);
    assert Delivery.Next(s, Delivery.Publish(MethodOf(e), [], e)).log == s.log + [last];
  }

  lemma {:induction false} PublishesPrefix(es: seq<Event>)
    requires es != []
    ensures Publishes(es)[..|es| - 1] == Publishes(es[..|es| - 1])
    ensures es == es[..|es| - 1] + [es[|es| - 1]]
  {
  }

  lemma {:induction false} PublishesLog(s: Delivery.System<Event>, es: seq<Event>)
    requires WellNamed(s.log)
    ensures WellNamed(Delivery.After(s, Publishes(es)).log)
    ensures Payloads(Delivery.After(s, Publishes(es)).log) == Payloads(s.log) + es
  {
    if es == [] {
      assert Payloads(s.log) + [] == Payloads(s.log);
    } else {
      var init, last := es[..|es| - 1], es[|es| - 1];
      PublishesLog(s, init);
      PublishesPrefix(es);
      PublishOne(Delivery.After(s, Publishes(init)), last);
      EventsAssociate(Payloads(s.log), init, [last]);
    }
  }

  lemma {:induction false} ClientLog(s: Delivery.System<Event>, step: Delivery.Step<Event>)
    requires !step.Publish?
    ensures Delivery.After(s, [step]).log == s.log
  {
    assert [step][..0] == [];
    assert Delivery.After(s, [step]) == Delivery.Next(s, step);
  }

  lemma {:induction false} LogCarried(size: nat, loads: Loads, stored: Option<string>, actions: seq<Action>)
    ensures WellNamed(HubAfter(size, loads, stored, actions).log)
    ensures Payloads(HubAfter(size, loads, stored, actions).log) == ThreadAfter(loads, stored, actions).log
  {
    if actions != [] {
      var init, last := actions[..|actions| - 1], actions[|actions| - 1];
      LogCarried(size, loads, stored, init);
      if last.Run? {
        RunCarried(size, loads, stored, init, last.step);
      } else {
        ClientCarried(size, loads, stored, init, last.request);
      }
    }
  }

  lemma {:induction false} RunCarried(size: nat, loads: Loads, stored: Option<string>, init: seq<Action>, step: Step)
    requires WellNamed(HubAfter(size, loads, stored, init).log)
    requires Payloads(HubAfter(size, loads, stored, init).log) == ThreadAfter(loads, stored, init).log
    ensures var steps := HubSteps(loads, stored, init) + Publishes(NewEvents(ThreadAfter(loads, stored, init), step));
      var s := Delivery.After(Delivery.Empty(size), steps);
      && WellNamed(s.log) && Payloads(s.log) == History(loads, stored, RunSteps(init) + [step]).log
  {
    var t := ThreadAfter(loads, stored, init);
    LogGrows(t, step);
    PublishesLog(HubAfter(size, loads, stored, init), NewEvents(t, step));
    Handoff.AfterConcat(Delivery.Empty<Event>(size), HubSteps(loads, stored, init), Publishes(NewEvents(t, step)));
    assert (RunSteps(init) + [step])[..|RunSteps(init)|] == RunSteps(init);
  }

  lemma {:induction false} ClientCarried(
    size: nat, loads: Loads, stored: Option<string>, init: seq<Action>, step: Delivery.Step<Event>)
    ensures var actions := init + [Client(step)];
      && HubAfter(size, loads, stored, actions).log == HubAfter(size, loads, stored, init).log
      && ThreadAfter(loads, stored, actions) == ThreadAfter(loads, stored, init)
  {
    var steps := HubSteps(loads, stored, init);
    assert (init + [Client(step)])[..|init|] == init;
    assert RunSteps(init) + [] == RunSteps(init) && steps + [] == steps;
    if !step.Publish? {
      Handoff.AfterConcat(Delivery.Empty<Event>(size), steps, [step]);
      ClientLog(HubAfter(size, loads, stored, init), step);
    }
  }

  // ------------------------------------------------------ what a client is sent

  /** Nothing is left to replay, and nothing queued would still pass. */
  ghost predicate Drained(c: Connection<Event>) {
    c.replaying == [] && Select(c.cursor.queue, c.cursor.Matches) == []
  }

  /** A connected client of the thread's root events, from the beginning, that lost nothing and has caught up. */
  ghost predicate CaughtUp(s: Delivery.System<Event>, id: Delivery.ConnectionId) {
    && Handoff.Connected(s, id) && Handoff.Lossless(s, id)
    && s.connections[id].phase != Closed && Drained(s.connections[id])
    && s.records[id].since == 0 && s.records[id].filter.namespaces == []
  }

  /** The events on a client's channels. */
  function OnChannels(channels: set<string>): Event -> bool {
    e => Filter(channels, []).SelectsChannel(MethodOf(e))
  }

  lemma {:induction false} PayloadsSelect(log: seq<Envelope<Event>>, p: Envelope<Event> -> bool, q: Event -> bool)
    requires forall i :: 0 <= i < |log| ==> p(log[i]) == q(log[i].data)
    ensures Payloads(Select(log, p)) == Select(Payloads(log), q)
  {
    if log != [] {
      var init, last := log[..|log| - 1], log[|log| - 1];
      PayloadsSelect(init, p, q);
      assert Payloads(log)[..|log| - 1] == Payloads(init);
    }
  }

  /** A client that has caught up was sent the thread's log, filtered by its channels: no more, no less, in order. */
  lemma {:induction false} ClientReadsLog(
    size: nat, loads: Loads, stored: Option<string>, actions: seq<Action>, id: Delivery.ConnectionId)
    requires CaughtUp(HubAfter(size, loads, stored, actions), id)
    ensures var s := HubAfter(size, loads, stored, actions);
      Payloads(s.connections[id].delivered)
      == Select(ThreadAfter(loads, stored, actions).log, OnChannels(s.records[id].filter.channels))
  {
    var s := HubAfter(size, loads, stored, actions);
    LogCarried(size, loads, stored, actions);
    Handoff.WholeView(size, HubSteps(loads, stored, actions), id);
    var c, r := s.connections[id], s.records[id];
    assert s.log[..r.seen] == s.log;
    assert c.delivered + [] + [] == c.delivered;
    assert forall i :: 0 <= i < |s.log| ==> r.Wanted(s.log[i]) == OnChannels(r.filter.channels)(s.log[i].data);
    PayloadsSelect(s.log, r.Wanted, OnChannels(r.filter.channels));
  }

  /** The kinds of events a client of some channels has asked for. */
  function AskedFor(channels: set<string>): Event -> bool {
    (e: Event) =>
      match e
      case Lifecycle(_, _) => "lifecycle" in channels
      case Message(_) => "messages" in channels
      case Values(_) => "values" in channels
      case InputRequested(_, _) => "input" in channels
  }

  /** A client that has caught up was sent the events of exactly the kinds its channels are for. */
  lemma {:induction false} ClientReadsKinds(
    size: nat, loads: Loads, stored: Option<string>, actions: seq<Action>, id: Delivery.ConnectionId)
    requires CaughtUp(HubAfter(size, loads, stored, actions), id)
    requires HubAfter(size, loads, stored, actions).records[id].filter.channels != {}
    ensures var s := HubAfter(size, loads, stored, actions);
      Payloads(s.connections[id].delivered)
      == Select(ThreadAfter(loads, stored, actions).log, AskedFor(s.records[id].filter.channels))
  {
    var channels := HubAfter(size, loads, stored, actions).records[id].filter.channels;
    var log := ThreadAfter(loads, stored, actions).log;
    ClientReadsLog(size, loads, stored, actions, id);
    forall i | 0 <= i < |log| ensures OnChannels(channels)(log[i]) == AskedFor(channels)(log[i]) {
      ChannelsSelect(channels, Envelope(0, MethodOf(log[i]), [], log[i]));
    }
    SelectAgree(log, OnChannels(channels), AskedFor(channels));
  }

  /** The wire name of every kind of event in a thread's hub. */
  lemma {:induction false} WireNames(size: nat, loads: Loads, stored: Option<string>, actions: seq<Action>, i: nat)
    requires i < |HubAfter(size, loads, stored, actions).log|
    ensures var e := HubAfter(size, loads, stored, actions).log[i];
      e.name == (match e.data
                 case Lifecycle(_, _) => "lifecycle"
                 case Message(_) => "messages"
                 case Values(_) => "values"
                 case InputRequested(_, _) => "input.requested")
  {
    LogCarried(size, loads, stored, actions);
  }

  // ------------------------------------------------- what the client makes of it

  /** A client that starts a new reader at each run and feeds it the message frames. */
  function Decode(es: seq<Event>): seq<Option<seq<Frames.Reading>>> {
    if es == [] then []
    else Heard(Decode(es[..|es| - 1]), es[|es| - 1])
  }

  function Heard(runs: seq<Option<seq<Frames.Reading>>>, e: Event): seq<Option<seq<Frames.Reading>>> {
    if e.Lifecycle? && e.status.Started? then runs + [Some([])]
    else if e.Message? && runs != [] then
      runs[|runs| - 1 := if runs[|runs| - 1].None? then None else Frames.Read(runs[|runs| - 1].value, e.frame)]
    else runs
  }

  /** The meaning of what a run's graph streamed. */
  function Reads(task: Task): Option<seq<Frames.Reading>> {
    Some(RoundTrip.Meanings(task.translator.loads, RoundTrip.Ledger(task.calls)))
  }

  /** What was fed to the translators of the runs that started, in order. */
  function Conveyed(tasks: seq<Task>): seq<Option<seq<Frames.Reading>>> {
    if tasks == [] then []
    else
      var last := tasks[|tasks| - 1];
      Conveyed(tasks[..|tasks| - 1]) +
      if last.stage.Created? || last.stage.NeverRan? then []
      else [Reads(last)]
  }

  lemma {:induction false} DecodeLast(es: seq<Event>, body: seq<Event>)
    requires body != []
    ensures Decode(es + body) == Heard(Decode(es + body[..|body| - 1]), body[|body| - 1])
  {
    assert (es + body)[..|es + body| - 1] == es + body[..|body| - 1];
  }

  predicate Silent(e: Event) { !e.Message? && !(e.Lifecycle? && e.status.Started?) }

  lemma {:induction false} SilentUpTo(es: seq<Event>, more: seq<Event>, k: nat)
    requires k <= |more| && forall i :: 0 <= i < |more| ==> Silent(more[i])
    ensures Decode(es + more[..k]) == Decode(es)
  {
    if k == 0 {
      assert es + more[..0] == es;
    } else {
      SilentUpTo(es, more, k - 1);
      DecodeLast(es, more[..k]);
      assert more[..k][..k - 1] == more[..k - 1];
    }
  }

  lemma {:induction false} DecodeSilent(es: seq<Event>, more: seq<Event>)
    requires forall i :: 0 <= i < |more| ==> Silent(more[i])
    ensures Decode(es + more) == Decode(es)
  {
    SilentUpTo(es, more, |more|);
    assert more[..|more|] == more;
  }

  lemma {:induction false} HeardInBody(runs: seq<Option<seq<Frames.Reading>>>, body: seq<Event>, k: nat)
    requires k < |body| && StreamEvent(body[k])
    ensures Heard(runs + [Frames.ReadAll([], FramesIn(body[..k]))], body[k])
            == runs + [Frames.ReadAll([], FramesIn(body[..k + 1]))]
  {
    assert body[..k + 1][..k] == body[..k];
    if body[k].Message? {
      assert FramesIn(body[..k + 1])[..|FramesIn(body[..k])|] == FramesIn(body[..k]);
    } else {
      assert FramesIn(body[..k]) + [] == FramesIn(body[..k]);
    }
  }

  lemma {:induction false} DecodeBody(es: seq<Event>, body: seq<Event>, k: nat, runs: seq<Option<seq<Frames.Reading>>>)
    requires k <= |body| && forall i :: 0 <= i < |body| ==> StreamEvent(body[i])
    requires Decode(es) == runs + [Some([])]
    ensures Decode(es + body[..k]) == runs + [Frames.ReadAll([], FramesIn(body[..k]))]
  {
    if k == 0 {
      assert es + body[..0] == es;
    } else {
      DecodeBody(es, body, k - 1, runs);
      DecodeLast(es, body[..k]);
      assert body[..k][..k - 1] == body[..k - 1];
      HeardInBody(runs, body, k - 1);
    }
  }

  lemma {:induction false} DecodeOpening(es: seq<Event>, assistant: string)
    ensures Decode(es + [Lifecycle(assistant, Started), Lifecycle(assistant, Running)]) == Decode(es) + [Some([])]
  {
    var begun := es + [Lifecycle(assistant, Started)];
    assert begun[..|es|] == es;
    assert es + [Lifecycle(assistant, Started), Lifecycle(assistant, Running)] == begun + [Lifecycle(assistant, Running)];
    DecodeSilent(begun, [Lifecycle(assistant, Running)]);
  }

  lemma {:induction false} DecodeUpToBody(es: seq<Event>, task: Task)
    requires TaskInv(task)
    ensures Decode(es + ([Lifecycle(task.assistant, Started), Lifecycle(task.assistant, Running)] + task.body))
            == Decode(es) + [Reads(task)]
  {
    var opening := [Lifecycle(task.assistant, Started), Lifecycle(task.assistant, Running)];
    DecodeOpening(es, task.assistant);
    DecodeBody(es + opening, task.body, |task.body|, Decode(es));
    assert task.body[..|task.body|] == task.body;
    RunMessages.BodyReads(task);
    EventsAssociate(es, opening, task.body);
  }

  lemma {:induction false} ClosingIsSilent(es: seq<Event>, assistant: string, ending: Ending)
    ensures Decode(es + Closing(assistant, ending)) == Decode(es)
  {
    DecodeSilent(es, Closing(assistant, ending));
  }

  lemma {:induction false} DecodeBlock(es: seq<Event>, task: Task)
    requires TaskInv(task) && !task.stage.Created? && !task.stage.NeverRan?
    ensures Decode(es + BlockOf(task)) == Decode(es) + [Reads(task)]
  {
    DecodeUpToBody(es, task);
    if task.stage.Ended? {
      var head := [Lifecycle(task.assistant, Started), Lifecycle(task.assistant, Running)] + task.body;
      ClosingIsSilent(es + head, task.assistant, task.stage.ending);
      EventsAssociate(es, head, Closing(task.assistant, task.stage.ending));
    }
  }

  lemma {:induction false} DecodeBlocks(tasks: seq<Task>)
    requires forall k :: 0 <= k < |tasks| ==> TaskInv(tasks[k])
    ensures Decode(Blocks(tasks)) == Conveyed(tasks)
  {
    if tasks != [] {
      var init, last := tasks[..|tasks| - 1], tasks[|tasks| - 1];
      DecodeBlocks(init);
      if last.stage.Created? || last.stage.NeverRan? {
        assert Blocks(init) + [] == Blocks(init);
      } else {
        DecodeBlock(Blocks(init), last);
      }
    }
  }

  /**
   End to end: a client of all channels that has caught up reads, run by run,
   exactly the meaning of the chunks the graphs streamed.
   */
  lemma {:induction false} ClientReadsWhatGraphsSaid(
    size: nat, loads: Loads, stored: Option<string>, actions: seq<Action>, id: Delivery.ConnectionId)
    requires CaughtUp(HubAfter(size, loads, stored, actions), id)
    requires HubAfter(size, loads, stored, actions).records[id].filter.channels == {}
    ensures Decode(Payloads(HubAfter(size, loads, stored, actions).connections[id].delivered))
            == Conveyed(ThreadAfter(loads, stored, actions).tasks)
  {
    var t := ThreadAfter(loads, stored, actions);
    ClientReadsLog(size, loads, stored, actions, id);
    HistoryInv(loads, stored, RunSteps(actions));
    SelectAll(t.log, OnChannels({}));
    DecodeBlocks(t.tasks);
  }

  // ------------------------------------------------------------- catching up

  function ByClients(steps: seq<Delivery.Step<Event>>): seq<Action> {
    seq(|steps|, i requires 0 <= i < |steps| => Client(steps[i]))
  }

  /** Clients' own steps leave the thread alone and are their hub's next steps. */
  lemma {:induction false} OnlyClients(loads: Loads, stored: Option<string>, actions: seq<Action>, steps: seq<Delivery.Step<Event>>)
    requires forall i :: 0 <= i < |steps| ==> !steps[i].Publish?
    ensures RunSteps(actions + ByClients(steps)) == RunSteps(actions)
    ensures HubSteps(loads, stored, actions + ByClients(steps)) == HubSteps(loads, stored, actions) + steps
  {
    if steps == [] {
      assert actions + [] == actions;
      assert HubSteps(loads, stored, actions) + [] == HubSteps(loads, stored, actions);
    } else {
      var init, last := steps[..|steps| - 1], steps[|steps| - 1];
      OnlyClients(loads, stored, actions, init);
      OneMoreClient(loads, stored, actions + ByClients(init), last);
      assert actions + ByClients(steps) == actions + ByClients(init) + [Client(last)];
      assert HubSteps(loads, stored, actions) + steps == HubSteps(loads, stored, actions) + init + [last];
    }
  }

  lemma {:induction false} OneMoreClient(loads: Loads, stored: Option<string>, actions: seq<Action>, request: Delivery.Step<Event>)
    requires !request.Publish?
    ensures RunSteps(actions + [Client(request)]) == RunSteps(actions)
    ensures HubSteps(loads, stored, actions + [Client(request)]) == HubSteps(loads, stored, actions) + [request]
  {
    assert (actions + [Client(request)])[..|actions|] == actions;
    assert RunSteps(actions) + [] == RunSteps(actions);
  }

  lemma {:induction false} DrainingIsQuiet(c: Connection<Event>, id: Delivery.ConnectionId)
    ensures forall i :: 0 <= i < |Handoff.Draining(c, id)| ==> !Handoff.Draining(c, id)[i].Publish?
    decreases |c.replaying| + |c.cursor.queue|
  {
    if c.CanSend() { DrainingIsQuiet(c.SendReplayed(), id); }
    else if c.CanTake() { DrainingIsQuiet(c.Take(), id); }
  }

  /** A client that lost nothing can catch up: sending and taking what waits for it is all it needs. */
  lemma {:induction false} CanCatchUp(
    size: nat, loads: Loads, stored: Option<string>, actions: seq<Action>, id: Delivery.ConnectionId)
    requires var s := HubAfter(size, loads, stored, actions);
      && Handoff.Connected(s, id) && Handoff.Lossless(s, id) && s.connections[id].phase == Hub.Streaming
      && s.records[id].since == 0 && s.records[id].filter.namespaces == []
    ensures var s := HubAfter(size, loads, stored, actions);
      var more := actions + ByClients(Handoff.Draining(s.connections[id], id));
      && CaughtUp(HubAfter(size, loads, stored, more), id)
      && ThreadAfter(loads, stored, more) == ThreadAfter(loads, stored, actions)
      && HubAfter(size, loads, stored, more).records == s.records
  {
    var s := HubAfter(size, loads, stored, actions);
    var steps := Handoff.Draining(s.connections[id], id);
    DrainingIsQuiet(s.connections[id], id);
    OnlyClients(loads, stored, actions, steps);
    Handoff.WaitingArrives(size, HubSteps(loads, stored, actions), id);
    LosslessKept(s, HubAfter(size, loads, stored, actions + ByClients(steps)), id);
  }

  lemma {:induction false} LosslessKept(s: Delivery.System<Event>, s': Delivery.System<Event>, id: Delivery.ConnectionId)
    requires Handoff.Connected(s, id) && Handoff.Lossless(s, id)
    requires Handoff.OnlyMoved(s, s', id, Handoff.Emptied(s.connections[id]))
    ensures Handoff.Connected(s', id) && Handoff.Lossless(s', id)
  {
  }
}
