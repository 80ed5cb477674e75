/**
 One run's coroutine as a mutable object (`RunManager._execute` in
 src/fastapi_agent_protocol/runner.py): its local variables are the fields, and
 each stretch of code between two awaits is a method. The methods are proved
 to publish to the hub what the step functions of `Runs` say.
 */
module Execution {
  import opened Options
  import opened Json
  import opened Translation
  import opened Hub
  import opened MutableTranslator
  import Runs
  import RunInvariants

  /** The wire method an event is published under. */
  function MethodOf(e: Runs.Event): string {
    match e
    case Lifecycle(_, _) => "lifecycle"
    case Message(_) => "messages"
    case Values(_) => "values"
    case InputRequested(_, _) => "input.requested"
  }

  function Payloads(log: seq<Envelope<Runs.Event>>): seq<Runs.Event> {
    seq(|log|, i requires 0 <= i < |log| => log[i].data)
  }

  /** Every envelope is a root event under its own method. */
  ghost predicate WellNamed(log: seq<Envelope<Runs.Event>>) {
    forall i :: 0 <= i < |log| ==> log[i].name == MethodOf(log[i].data) && log[i].namespace == []
  }

  lemma {:induction false} NextMessage(fs: seq<Frame>, from: nat, n: nat)
    requires from <= n < |fs|
    ensures Runs.Messages(fs[from..n + 1]) == Runs.Messages(fs[from..n]) + [Runs.Message(fs[n])]
  {
  }

  lemma {:induction false} RequestsSnoc(interrupts: seq<Runs.Interrupt>, n: nat)
    requires n < |interrupts|
    ensures Runs.Requests(interrupts[..n + 1]) == Runs.Requests(interrupts[..n]) + Runs.Requests(interrupts[n..n + 1])
    ensures Runs.Requests(interrupts[n..n + 1]) == [Runs.InputRequested(interrupts[n].id, interrupts[n].payload)]
  {
  }

  class RunExecution {
    const hub: ThreadEventHub<Runs.Event>
    const translator: MessagesTranslator
    const assistant: string
    var lastValues: Option<Runs.Snapshot>
    ghost const position: nat  // which of its thread's runs this is
    ghost var task: Runs.Task  // the run as the step functions see it

    ghost predicate Valid()
      reads this, hub, translator, translator.repr
    {
      && hub.Valid() && WellNamed(hub.log)
      && translator.Valid() && translator.View() == task.translator
      && lastValues == task.lastValues && assistant == task.assistant
    }

    ghost function Log(): seq<Runs.Event>
      reads hub
    {
      Payloads(hub.log)
    }

    /** The run has taken a step of its task: it became what the step makes of it, and published what that publishes. */
    ghost predicate Took(was: Runs.Task, log: seq<Runs.Event>, step: Runs.Step)
      requires RunInvariants.TaskStep(step)
      reads this, hub
    {
      var effect := RunInvariants.EffectOn(was, step);
      task == effect.task && Log() == log + effect.events
    }

    constructor (hub: ThreadEventHub<Runs.Event>, loads: Loads, run: Runs.RunId, assistant: string,
                 ghost found: Option<nat>, ghost position: nat)
      requires hub.Valid() && WellNamed(hub.log)
      ensures Valid() && this.hub == hub && this.position == position && fresh(translator) && fresh(translator.repr)
      ensures task == Runs.NewTask(loads, run, assistant, found)
    {
      this.hub, this.assistant, this.position := hub, assistant, position;
      translator := new MessagesTranslator(loads);
      lastValues := None;
      task := Runs.NewTask(loads, run, assistant, found);
    }

    method Publish(e: Runs.Event)
      requires Valid()
      modifies hub`lastNo, hub`buffer, hub`log, hub.subscribers
      ensures Valid() && Log() == old(Log()) + [e]
    {
      var _ := hub.Publish(MethodOf(e), [], e);
    }

    /** What the translator pushed to its sink from position `from` on, published one frame at a time. */
    method Drain(from: nat)
      requires Valid() && from <= |translator.sink|
      modifies hub`lastNo, hub`buffer, hub`log, hub.subscribers
      ensures Valid() && Log() == old(Log()) + Runs.Messages(translator.sink[from..])
    {
      var n := from;
      while n < |translator.sink|
        invariant from <= n <= |translator.sink| && Valid()
        invariant Log() == old(Log()) + Runs.Messages(translator.sink[from..n])
      {
        Publish(Runs.Message(translator.sink[n]));
        NextMessage(translator.sink, from, n);
        n := n + 1;
      }
      assert translator.sink[from..n] == translator.sink[from..];
    }

    method Forward(call: Call) returns (from: nat)
      requires Valid()
      modifies this`task, translator, translator.repr
      ensures Valid() && fresh(translator.repr - old(translator.repr))
      ensures task == Runs.Called(old(task), call).0
      ensures from <= |translator.sink| && translator.sink[from..] == Apply(old(task.translator), call).frames
    {
      from := |translator.sink|;
      match call {
        case Feed(c) => translator.Feed(c);
        case FinishMessage(c) => translator.Finish(Some(c));
        case FinishEvery => translator.Finish(None);
      }
      task := Runs.Called(task, call).0;
    }

    /** One translator call, with everything it sends. */
    method CallTranslator(call: Call)
      requires Valid()
      modifies this`task, hub`lastNo, hub`buffer, hub`log, hub.subscribers, translator, translator.repr
      ensures Valid() && fresh(translator.repr - old(translator.repr))
      ensures task == Runs.Called(old(task), call).0 && Log() == old(Log()) + Runs.Called(old(task), call).1
    {
      var from := Forward(call);
      Drain(from);
    }

    /** The first step of the coroutine. */
    method Begin()
      requires Valid()
      modifies this`task, hub`lastNo, hub`buffer, hub`log, hub.subscribers
      ensures Valid() && task == old(task).(stage := Runs.Streaming)
      ensures Log() == old(Log()) + [Runs.Lifecycle(assistant, Runs.Started), Runs.Lifecycle(assistant, Runs.Running)]
      ensures !old(task).cancelRequested ==> Took(old(task), old(Log()), Runs.FirstStep(position))
    {
      Publish(Runs.Lifecycle(assistant, Runs.Started));
      Publish(Runs.Lifecycle(assistant, Runs.Running));
      task := task.(stage := Runs.Streaming);
    }

    /** A `messages` item of the stream: fed, and finished too when it carries usage. */
    method OnMessage(c: Chunk)
      requires Valid()
      modifies this`task, hub`lastNo, hub`buffer, hub`log, hub.subscribers, translator, translator.repr
      ensures Valid() && fresh(translator.repr - old(translator.repr))
      ensures Took(old(task), old(Log()), Runs.StreamMessage(position, c))
    {
      ghost var fed := Runs.Called(task, Feed(c));
      CallTranslator(Feed(c));
      if c.usage.Some? {
        CallTranslator(FinishMessage(c));
        Runs.EventsAssociate(old(Log()), fed.1, Runs.Called(fed.0, FinishMessage(c)).1);
      }
    }

    /** A `values` item of the stream. */
    method OnValues(s: Runs.Snapshot)
      requires Valid()
      modifies this, hub`lastNo, hub`buffer, hub`log, hub.subscribers
      ensures Valid() && Log() == old(Log()) + [Runs.Values(s.fields)] && lastValues == Some(s)
      ensures Took(old(task), old(Log()), Runs.StreamValues(position, s))
    {
      lastValues := Some(s);
      task := task.(lastValues := Some(s), body := task.body + [Runs.Values(s.fields)]);
      Publish(Runs.Values(s.fields));
    }

    /** The common ending: open messages are finished, then one terminal event is published. */
    method Close(status: Runs.Status, ghost ending: Runs.Ending)
      requires Valid()
      modifies this`task, hub`lastNo, hub`buffer, hub`log, hub.subscribers, translator, translator.repr
      ensures Valid() && fresh(translator.repr - old(translator.repr))
      ensures task == Runs.Closed(old(task), ending, status).0
      ensures Log() == old(Log()) + Runs.Closed(old(task), ending, status).1
    {
      ghost var frames := Runs.Called(task, FinishEvery).1;
      CallTranslator(FinishEvery);
      task := task.(stage := Runs.Ended(ending));
      Publish(Runs.Lifecycle(assistant, status));
      Runs.EventsAssociate(old(Log()), frames, [Runs.Lifecycle(assistant, status)]);
    }

    /** `interrupts_from_snapshot` on the last values, or on the checkpoint when none were streamed. */
    method Interrupts(fallback: Runs.Snapshot) returns (pairs: seq<Runs.Interrupt>)
      requires Valid()
      ensures pairs == Runs.Outcome(task, fallback)
    {
      var entries := (if lastValues.Some? then lastValues.value else fallback).interrupts;
      pairs := [];
      for n := 0 to |entries|
        invariant |pairs| == n
        invariant forall i :: 0 <= i < n ==>
          pairs[i] == Runs.Interrupt(Runs.InterruptId(entries[i]), entries[i].value)
      {
        pairs := pairs + [Runs.Interrupt(Runs.InterruptId(entries[n]), entries[n].value)];
      }
    }

    method PublishRequests(interrupts: seq<Runs.Interrupt>)
      requires Valid()
      modifies hub`lastNo, hub`buffer, hub`log, hub.subscribers
      ensures Valid() && Log() == old(Log()) + Runs.Requests(interrupts)
    {
      for n := 0 to |interrupts|
        invariant Valid() && Log() == old(Log()) + Runs.Requests(interrupts[..n])
      {
        Publish(Runs.InputRequested(interrupts[n].id, interrupts[n].payload));
        RequestsSnoc(interrupts, n);
        Runs.EventsAssociate(old(Log()), Runs.Requests(interrupts[..n]), Runs.Requests(interrupts[n..n + 1]));
      }
      assert interrupts[..|interrupts|] == interrupts;
    }

    /** The graph interrupted: the terminal event, then one request each; open messages stay open. */
    method AskForInput(interrupts: seq<Runs.Interrupt>)
      requires Valid()
      modifies this`task, hub`lastNo, hub`buffer, hub`log, hub.subscribers
      ensures Valid() && task == old(task).(stage := Runs.Ended(Runs.AwaitingInput(interrupts)))
      ensures Log() == old(Log()) + ([Runs.Lifecycle(assistant, Runs.Interrupted)] + Runs.Requests(interrupts))
    {
      task := task.(stage := Runs.Ended(Runs.AwaitingInput(interrupts)));
      Publish(Runs.Lifecycle(assistant, Runs.Interrupted));
      PublishRequests(interrupts);
      Runs.EventsAssociate(old(Log()), [Runs.Lifecycle(assistant, Runs.Interrupted)], Runs.Requests(interrupts));
    }

    /** The stream ended: the graph interrupted if there are interrupts, and completed otherwise. */
    method EndStream(fallback: Runs.Snapshot) returns (interrupts: seq<Runs.Interrupt>)
      requires Valid()
      modifies this`task, hub`lastNo, hub`buffer, hub`log, hub.subscribers, translator, translator.repr
      ensures Valid() && fresh(translator.repr - old(translator.repr))
      ensures interrupts == RunInvariants.EffectOn(old(task), Runs.EndOfStream(position, fallback)).registered
      ensures Took(old(task), old(Log()), Runs.EndOfStream(position, fallback))
    {
      interrupts := Interrupts(fallback);
      if interrupts == [] {
        Close(Runs.Completed, Runs.Finished);
      } else {
        AskForInput(interrupts);
      }
    }

    /** The handler of a cancellation delivered while the stream is awaited. */
    method OnCancelled()
      requires Valid()
      modifies this`task, hub`lastNo, hub`buffer, hub`log, hub.subscribers, translator, translator.repr
      ensures Valid() && fresh(translator.repr - old(translator.repr))
      ensures Took(old(task), old(Log()), Runs.CancelDelivered(position))
    {
      Close(Runs.Interrupted, Runs.Cancelled);
    }

    /** The handler of any other exception of the stream. */
    method OnRaised(error: string)
      requires Valid()
      modifies this`task, hub`lastNo, hub`buffer, hub`log, hub.subscribers, translator, translator.repr
      ensures Valid() && fresh(translator.repr - old(translator.repr))
      ensures Took(old(task), old(Log()), Runs.StreamRaised(position, error))
    {
      Close(Runs.Failed(error), Runs.Errored(error));
    }
  }
}
