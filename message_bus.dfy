/**
 * The message bus of allocation/service_layer/messagebus.py.
 *
 * `handle` drains a FIFO queue that starts with one message.  A command goes
 * to its single registered handler and a failure of that handler is raised
 * out of `handle`; an event goes to each of its registered handlers in
 * order, and an `Exception` raised by one of them is swallowed.  After a handler returns
 * normally, the messages the unit of work collects are appended to the back
 * of the queue.
 *
 * Handlers are not part of this model: `invoke(h, m, s)` stands for calling
 * handler `h` on message `m` when the unit of work is in state `s`, followed
 * (when the handler returns) by `uow.collect_new_events()`.  It gives the
 * handler's result, the collected messages and the new state, or the
 * exception it raised and the state it left behind.  The exceptions `E`
 * stands for are those `except Exception` catches; a `BaseException` such as
 * `KeyboardInterrupt` or `SystemExit` is not modelled.
 */
module MessageBus {
  import opened Common
  import opened Messages

  datatype HandlerOutcome<R, E, S> =
    | Returned(result: R, collected: seq<Message>, after: S)
    | Raised(error: E, after: S)
  {
    function After(): (r: S)
    {
      match this
      case Returned(_, _, s) => s
      case Raised(_, s) => s
    }
  }

  /** Why `handle` raised. */
  datatype Failure<E> =
    | HandlerFailed(error: E)      // a command handler raised `error`
    | NoHandler(message: Message)  // KeyError: the message type has no entry in its table
    | NotAMessage(message: Message)

  /** EVENT_HANDLERS and COMMAND_HANDLERS: a handler list per event type, one handler per command type. */
  datatype Registry<H> = Registry(eventHandlers: map<EventType, seq<H>>, commandHandlers: map<CommandType, H>)

  /** What processing one message from the queue does. */
  datatype Effect<R, E, S> =
    | CommandHandled(result: R, newMessages: seq<Message>, after: S)
    | EventHandled(newMessages: seq<Message>, after: S)
    | Failed(failure: Failure<E>, after: S)
  {
    /** The messages appended to the queue. */
    function Appended(): (r: seq<Message>)
    {
      if Failed? then [] else newMessages
    }
  }

  /** One processed message, the state it was processed in, and what processing it did. */
  datatype Step<R, E, S> = Step(message: Message, before: S, effect: Effect<R, E, S>)

  /** What `handle` gives back: the command results, or the exception it raised. */
  datatype BusOutcome<R, E> =
    | Completed(results: seq<R>)
    | Aborted(failure: Failure<E>)
    | OutOfFuel

  /**
   * The `for handler in ...: try ... except: continue` loop of handle_event:
   * every handler in `hs` runs, in order, on the state the previous one left;
   * the messages of those that return are collected, those that raise add
   * nothing.
   */
  function RunEventHandlers<H, R, E, S>(hs: seq<H>, m: Message, s: S, invoke: (H, Message, S) -> HandlerOutcome<R, E, S>)
    : (r: (seq<Message>, S))
  {
    if hs == [] then ([], s)
    else
      var out := invoke(hs[0], m, s);
      var rest := RunEventHandlers(hs[1..], m, out.After(), invoke);
      if out.Returned? then (out.collected + rest.0, rest.1) else rest
  }

  /** What processing message `m` in state `s` does: handle_event, handle_command, or the final `raise`. */
  function Dispatch<H, R, E, S>(reg: Registry<H>, invoke: (H, Message, S) -> HandlerOutcome<R, E, S>, m: Message, s: S)
    : (r: Effect<R, E, S>)
  {
    match m
    case Evt(e) =>
      if e.Type() !in reg.eventHandlers then Failed(NoHandler(m), s)
      else
        var (collected, after) := RunEventHandlers(reg.eventHandlers[e.Type()], m, s, invoke);
        EventHandled(collected, after)
    case Cmd(c) =>
      if c.Type() !in reg.commandHandlers then Failed(NoHandler(m), s)
      else
        var out := invoke(reg.commandHandlers[c.Type()], m, s);
        if out.Returned? then CommandHandled(out.result, out.collected, out.after)
        else Failed(HandlerFailed(out.error), out.after)
    case Other(_) => Failed(NotAMessage(m), s)
  }

  /** The state after the steps of `trace`, starting from `s0`. */
  function Final<R, E, S>(s0: S, trace: seq<Step<R, E, S>>): (r: S)
  {
    if trace == [] then s0 else trace[|trace| - 1].effect.after
  }

  /** Each step processed its message with Dispatch, in the state the previous step left. */
  ghost predicate Chained<H, R, E, S>(reg: Registry<H>, invoke: (H, Message, S) -> HandlerOutcome<R, E, S>, s0: S, trace: seq<Step<R, E, S>>)
  {
    if trace == [] then true
    else
      var last := trace[|trace| - 1];
      && Chained(reg, invoke, s0, trace[..|trace| - 1])
      && last.before == Final(s0, trace[..|trace| - 1])
      && last.effect == Dispatch(reg, invoke, last.message, last.before)
  }

  /** The messages processed, in processing order. */
  function Processed<R, E, S>(trace: seq<Step<R, E, S>>): (r: seq<Message>)
  {
    if trace == [] then [] else Processed(trace[..|trace| - 1]) + [trace[|trace| - 1].message]
  }

  /** The messages appended to the queue, in the order they were appended. */
  function Emitted<R, E, S>(trace: seq<Step<R, E, S>>): (r: seq<Message>)
  {
    if trace == [] then [] else Emitted(trace[..|trace| - 1]) + trace[|trace| - 1].effect.Appended()
  }

  /** The results of the command handlers, in processing order; events add none. */
  function CommandResults<R, E, S>(trace: seq<Step<R, E, S>>): (r: seq<R>)
  {
    if trace == [] then []
    else
      var last := trace[|trace| - 1].effect;
      CommandResults(trace[..|trace| - 1]) + if last.CommandHandled? then [last.result] else []
  }

  ghost predicate NoFailure<R, E, S>(trace: seq<Step<R, E, S>>)
  {
    forall i :: 0 <= i < |trace| ==> !trace[i].effect.Failed?
  }

  /**
   * `handle_event`: runs every handler registered for the event, appending
   * what each normal return collects to the queue; raises only when the
   * event type has no entry in the table.
   */
  method HandleEvent<H, R, E, S>(event: Event, queue: seq<Message>, reg: Registry<H>,
                                 invoke: (H, Message, S) -> HandlerOutcome<R, E, S>, s: S)
    returns (effect: Effect<R, E, S>, queue': seq<Message>)
    ensures effect == Dispatch(reg, invoke, Evt(event), s)
    ensures queue' == queue + effect.Appended()
  {
    if event.Type() !in reg.eventHandlers {
      return Failed(NoHandler(Evt(event)), s), queue;
    }
    var hs := reg.eventHandlers[event.Type()];
    var st := s;
    var collected: seq<Message> := [];
    var i := 0;
    assert hs[0..] == hs;
    assert [] + RunEventHandlers(hs, Evt(event), s, invoke).0 == RunEventHandlers(hs, Evt(event), s, invoke).0;
    while i < |hs|
      invariant 0 <= i <= |hs|
      invariant RunEventHandlers(hs, Evt(event), s, invoke)
                == (collected + RunEventHandlers(hs[i..], Evt(event), st, invoke).0,
                    RunEventHandlers(hs[i..], Evt(event), st, invoke).1)
    {
      assert hs[i..][1..] == hs[i + 1..];
      var out := invoke(hs[i], Evt(event), st);
      if out.Returned? {
        assert collected + (out.collected + RunEventHandlers(hs[i + 1..], Evt(event), out.After(), invoke).0)
            == (collected + out.collected) + RunEventHandlers(hs[i + 1..], Evt(event), out.After(), invoke).0;
        collected := collected + out.collected;
      }
      st := out.After();
      i := i + 1;
    }
    assert hs[i..] == [];
    effect, queue' := EventHandled(collected, st), queue + collected;
  }

  /**
   * `handle_command`: runs the one handler registered for the command,
   * appends what it collects and returns its result; any exception,
   * including a missing table entry, is raised again.
   */
  method HandleCommand<H, R, E, S>(command: Command, queue: seq<Message>, reg: Registry<H>,
                                   invoke: (H, Message, S) -> HandlerOutcome<R, E, S>, s: S)
    returns (effect: Effect<R, E, S>, queue': seq<Message>)
    ensures effect == Dispatch(reg, invoke, Cmd(command), s)
    ensures queue' == queue + effect.Appended()
  {
    if command.Type() !in reg.commandHandlers {
      return Failed(NoHandler(Cmd(command)), s), queue;
    }
    var out := invoke(reg.commandHandlers[command.Type()], Cmd(command), s);
    match out
    case Returned(result, collected, after) =>
      effect, queue' := CommandHandled(result, collected, after), queue + collected;
    case Raised(error, after) =>
      effect, queue' := Failed(HandlerFailed(error), after), queue;
  }

  /** The body of `handle`'s loop for one message taken off the queue. */
  method Process<H, R, E, S>(m: Message, queue: seq<Message>, reg: Registry<H>,
                             invoke: (H, Message, S) -> HandlerOutcome<R, E, S>, s: S)
    returns (effect: Effect<R, E, S>, queue': seq<Message>)
    ensures effect == Dispatch(reg, invoke, m, s)
    ensures queue' == queue + effect.Appended()
  {
    match m {
      case Evt(e) =>
        effect, queue' := HandleEvent(e, queue, reg, invoke, s);
      case Cmd(c) =>
        effect, queue' := HandleCommand(c, queue, reg, invoke, s);
      case Other(_) =>
        effect, queue' := Failed(NotAMessage(m), s), queue;
    }
  }

  /**
   * What `handle` computes, as a recursive definition: with the queue empty
   * it returns the results so far; otherwise it dispatches the head, stops
   * at a failure, and goes on with the rest of the queue followed by the
   * collected messages.  `fuel` bounds the number of messages processed.
   */
  function Drain<H, R, E, S>(reg: Registry<H>, invoke: (H, Message, S) -> HandlerOutcome<R, E, S>,
                             queue: seq<Message>, s: S, fuel: nat, results: seq<R>): (r: (BusOutcome<R, E>, S))
    decreases fuel
  {
    if queue == [] then (Completed(results), s)
    else if fuel == 0 then (OutOfFuel, s)
    else
      var effect := Dispatch(reg, invoke, queue[0], s);
      if effect.Failed? then (Aborted(effect.failure), effect.after)
      else
        Drain(reg, invoke, queue[1..] + effect.Appended(), effect.after, fuel - 1,
              if effect.CommandHandled? then results + [effect.result] else results)
  }

  /**
   * Command results only accumulate: when a drain completes, the results it
   * started with are a prefix of those it returns, and each processed message
   * added at most one.
   */
  lemma {:induction false} DrainResultsGrow<H, R, E, S>(reg: Registry<H>, invoke: (H, Message, S) -> HandlerOutcome<R, E, S>,
                                                        queue: seq<Message>, s: S, fuel: nat, results: seq<R>)
    ensures var out := Drain(reg, invoke, queue, s, fuel, results).0;
            out.Completed? ==> results <= out.results && |out.results| <= |results| + fuel
    decreases fuel
  {
    if queue != [] && fuel > 0 {
      var effect := Dispatch(reg, invoke, queue[0], s);
      if !effect.Failed? {
        var results' := if effect.CommandHandled? then results + [effect.result] else results;
        DrainResultsGrow(reg, invoke, queue[1..] + effect.Appended(), effect.after, fuel - 1, results');
      }
    }
  }

  /**
   * `handle`: processes messages first in, first out until the queue is
   * empty, a command fails, or `fuel` messages have been processed.
   * `trace` records every processed message with what processing it did,
   * and `s'` is the state left behind.
   */
  method Handle<H, R, E, S>(message: Message, reg: Registry<H>, invoke: (H, Message, S) -> HandlerOutcome<R, E, S>,
                            s0: S, fuel: nat)
    returns (outcome: BusOutcome<R, E>, s': S, ghost trace: seq<Step<R, E, S>>)
    ensures (outcome, s') == Drain(reg, invoke, [message], s0, fuel, [])
    ensures Explains(message, reg, invoke, s0, fuel, outcome, s', trace)
  {
    var queue := [message];
    var results: seq<R> := [];
    var count := 0;
    s' := s0;
    trace := [];
    ghost var final := Drain(reg, invoke, [message], s0, fuel, []);
    while queue != [] && count < fuel
      invariant count == |trace| <= fuel
      invariant Progress(message, reg, invoke, s0, trace, queue, results, s')
      invariant final == Drain(reg, invoke, queue, s', fuel - count, results)
      decreases fuel - count
    {
      var m := queue[0];
      var effect, queue' := Process(m, queue[1..], reg, invoke, s');
      var results' := if effect.CommandHandled? then results + [effect.result] else results;
      ProgressStep(message, reg, invoke, s0, trace, queue, results, s', effect, queue');
      DrainStep(reg, invoke, queue, s', fuel - count, results, effect, queue', results');
      if effect.Failed? {
        AbortedAt(message, reg, invoke, s0, fuel, trace + [Step(m, s', effect)], queue', effect.failure, effect.after);
        return Aborted(effect.failure), effect.after, trace + [Step(m, s', effect)];
      }
      trace, queue, s', results := trace + [Step(m, s', effect)], queue', effect.after, results';
      count := count + 1;
    }
    Stopped(message, reg, invoke, s0, fuel, trace, queue, results, s');
    outcome := if queue == [] then Completed(results) else OutOfFuel;
  }

  /**
   * What a run of `handle` that ended with `outcome` and state `s'` did,
   * told by its trace: every step dispatched its message to the registered
   * handlers in the state the previous step left; `s'` is the state the last
   * step left; the messages processed are a prefix of the first message
   * followed by every event the steps raised, in order (first in, first out).
   * Completed: all of them were processed, no step failed, and the results
   * are the command results in order.  Aborted: the last step, and only it,
   * failed, with the failure reported.  OutOfFuel: `fuel` steps ran, none
   * failed, and messages were left in the queue.
   */
  ghost predicate Explains<H, R, E, S>(message: Message, reg: Registry<H>, invoke: (H, Message, S) -> HandlerOutcome<R, E, S>,
                                       s0: S, fuel: nat, outcome: BusOutcome<R, E>, s': S, trace: seq<Step<R, E, S>>)
  {
    && Chained(reg, invoke, s0, trace)
    && s' == Final(s0, trace)
    && Processed(trace) <= [message] + Emitted(trace)
    && (outcome.Completed? ==> Processed(trace) == [message] + Emitted(trace))
    && (outcome.Completed? ==> NoFailure(trace) && outcome.results == CommandResults(trace))
    && (outcome.Aborted? ==> 0 < |trace| && NoFailure(trace[..|trace| - 1]))
    && (outcome.Aborted? ==> trace[|trace| - 1].effect == Failed(outcome.failure, s'))
    && (outcome.OutOfFuel? ==> |trace| == fuel && NoFailure(trace) && |Processed(trace)| < |[message] + Emitted(trace)|)
  }

  /** What holds while `handle` drains the queue: the trace so far and the queue left. */
  ghost predicate Progress<H, R, E, S>(message: Message, reg: Registry<H>, invoke: (H, Message, S) -> HandlerOutcome<R, E, S>,
                                       s0: S, trace: seq<Step<R, E, S>>, queue: seq<Message>, results: seq<R>, s: S)
  {
    && Chained(reg, invoke, s0, trace)
    && s == Final(s0, trace)
    && NoFailure(trace)
    && Processed(trace) + queue == [message] + Emitted(trace)
    && results == CommandResults(trace)
  }

  /** Processing the head of the queue extends the trace by one step and keeps the queue first in, first out. */
  lemma ProgressStep<H, R, E, S>(message: Message, reg: Registry<H>, invoke: (H, Message, S) -> HandlerOutcome<R, E, S>,
                                 s0: S, trace: seq<Step<R, E, S>>, queue: seq<Message>, results: seq<R>, s: S,
                                 effect: Effect<R, E, S>, queue': seq<Message>)
    requires Progress(message, reg, invoke, s0, trace, queue, results, s)
    requires queue != []
    requires effect == Dispatch(reg, invoke, queue[0], s)
    requires queue' == queue[1..] + effect.Appended()
    ensures var trace' := trace + [Step(queue[0], s, effect)];
            && Chained(reg, invoke, s0, trace')
            && effect.after == Final(s0, trace')
            && Processed(trace') + queue' == [message] + Emitted(trace')
            && NoFailure(trace' [..|trace'| - 1])
            && (!effect.Failed? ==>
                  Progress(message, reg, invoke, s0, trace', queue',
                           if effect.CommandHandled? then results + [effect.result] else results, effect.after))
  {
    var step := Step(queue[0], s, effect);
    Extend(reg, invoke, s0, trace, step);
    QueueStep(Processed(trace), queue, [message] + Emitted(trace), effect.Appended());
    NoFailureStep(trace, step);
  }

  /** Moving the head of the queue to the processed messages and appending to the back keeps them together. */
  lemma QueueStep<M>(done: seq<M>, queue: seq<M>, all: seq<M>, appended: seq<M>)
    requires queue != [] && done + queue == all
    ensures (done + [queue[0]]) + (queue[1..] + appended) == all + appended
  {
    assert queue == [queue[0]] + queue[1..];
  }

  /** Appending a step keeps the earlier steps, and keeps NoFailure when the step did not fail. */
  lemma NoFailureStep<R, E, S>(trace: seq<Step<R, E, S>>, step: Step<R, E, S>)
    requires NoFailure(trace)
    ensures (trace + [step])[..|trace|] == trace
    ensures !step.effect.Failed? ==> NoFailure(trace + [step])
  {
    assert (trace + [step])[..|trace|] == trace;
  }

  /** One step of Drain: the head is dispatched, and the rest is drained unless it failed. */
  lemma DrainStep<H, R, E, S>(reg: Registry<H>, invoke: (H, Message, S) -> HandlerOutcome<R, E, S>,
                              queue: seq<Message>, s: S, fuel: nat, results: seq<R>,
                              effect: Effect<R, E, S>, queue': seq<Message>, results': seq<R>)
    requires queue != [] && fuel > 0
    requires effect == Dispatch(reg, invoke, queue[0], s)
    requires queue' == queue[1..] + effect.Appended()
    requires results' == if effect.CommandHandled? then results + [effect.result] else results
    ensures effect.Failed? ==> Drain(reg, invoke, queue, s, fuel, results) == (Aborted(effect.failure), effect.after)
    ensures !effect.Failed? ==> Drain(reg, invoke, queue, s, fuel, results) == Drain(reg, invoke, queue', effect.after, fuel - 1, results')
  {
  }

  /** Leaving the loop with the queue empty or the fuel spent: the run is explained as Completed or OutOfFuel. */
  lemma Stopped<H, R, E, S>(message: Message, reg: Registry<H>, invoke: (H, Message, S) -> HandlerOutcome<R, E, S>,
                            s0: S, fuel: nat, trace: seq<Step<R, E, S>>, queue: seq<Message>, results: seq<R>, s: S)
    requires Progress(message, reg, invoke, s0, trace, queue, results, s)
    requires queue != [] ==> |trace| == fuel
    ensures Explains(message, reg, invoke, s0, fuel, if queue == [] then Completed(results) else OutOfFuel, s, trace)
  {
    assert Processed(trace) <= Processed(trace) + queue;
  }

  /** A trace whose last step, and only it, failed: the run is explained as Aborted with that failure. */
  lemma AbortedAt<H, R, E, S>(message: Message, reg: Registry<H>, invoke: (H, Message, S) -> HandlerOutcome<R, E, S>,
                              s0: S, fuel: nat, trace: seq<Step<R, E, S>>, queue: seq<Message>, failure: Failure<E>, s: S)
    requires Chained(reg, invoke, s0, trace) && s == Final(s0, trace)
    requires Processed(trace) + queue == [message] + Emitted(trace)
    requires 0 < |trace| && NoFailure(trace[..|trace| - 1])
    requires trace[|trace| - 1].effect == Failed(failure, s)
    ensures Explains(message, reg, invoke, s0, fuel, Aborted(failure), s, trace)
  {
    assert Processed(trace) <= Processed(trace) + queue;
  }

  /** How the trace functions grow when one more step is processed. */
  lemma Extend<H, R, E, S>(reg: Registry<H>, invoke: (H, Message, S) -> HandlerOutcome<R, E, S>, s0: S,
                           trace: seq<Step<R, E, S>>, step: Step<R, E, S>)
    requires Chained(reg, invoke, s0, trace)
    requires step.before == Final(s0, trace)
    requires step.effect == Dispatch(reg, invoke, step.message, step.before)
    ensures Chained(reg, invoke, s0, trace + [step])
    ensures Final(s0, trace + [step]) == step.effect.after
    ensures Processed(trace + [step]) == Processed(trace) + [step.message]
    ensures Emitted(trace + [step]) == Emitted(trace) + step.effect.Appended()
    ensures CommandResults(trace + [step])
            == CommandResults(trace) + if step.effect.CommandHandled? then [step.effect.result] else []
  {
    assert (trace + [step])[..|trace|] == trace;
  }

  /** Running the handlers of `hs1 + hs2` is running those of `hs1`, then those of `hs2` from where they left off. */
  lemma {:induction false} RunEventHandlersConcat<H, R, E, S>(hs1: seq<H>, hs2: seq<H>, m: Message, s: S,
                                                             invoke: (H, Message, S) -> HandlerOutcome<R, E, S>)
    ensures var first := RunEventHandlers(hs1, m, s, invoke);
            var second := RunEventHandlers(hs2, m, first.1, invoke);
            RunEventHandlers(hs1 + hs2, m, s, invoke) == (first.0 + second.0, second.1)
  {
    if hs1 == [] {
      assert hs1 + hs2 == hs2;
      assert [] + RunEventHandlers(hs2, m, s, invoke).0 == RunEventHandlers(hs2, m, s, invoke).0;
    } else {
      assert (hs1 + hs2)[0] == hs1[0];
      assert (hs1 + hs2)[1..] == hs1[1..] + hs2;
      var out := invoke(hs1[0], m, s);
      RunEventHandlersConcat(hs1[1..], hs2, m, out.After(), invoke);
      var tail := RunEventHandlers(hs1[1..], m, out.After(), invoke);
      var second := RunEventHandlers(hs2, m, tail.1, invoke);
      if out.Returned? {
        assert out.collected + (tail.0 + second.0) == (out.collected + tail.0) + second.0;
      }
    }
  }

  /**
   * Fault isolation: a handler that raises contributes no messages, and
   * the handlers after it still run, from the state it left behind.
   */
  lemma RaisingEventHandlerIsSkipped<H, R, E, S>(before: seq<H>, h: H, after: seq<H>, m: Message, s: S,
                                                 invoke: (H, Message, S) -> HandlerOutcome<R, E, S>)
    requires invoke(h, m, RunEventHandlers(before, m, s, invoke).1).Raised?
    ensures var first := RunEventHandlers(before, m, s, invoke);
            var rest := RunEventHandlers(after, m, invoke(h, m, first.1).After(), invoke);
            RunEventHandlers(before + [h] + after, m, s, invoke) == (first.0 + rest.0, rest.1)
  {
    RunEventHandlersConcat(before, [h] + after, m, s, invoke);
    assert before + [h] + after == before + ([h] + after);
    assert ([h] + after)[1..] == after;
  }

  /**
   * An event whose type is registered is never a failure of `handle`,
   * whatever `Exception` its handlers raise (a `BaseException` that is not an
   * `Exception` is outside `E`).
   */
  lemma EventsNeverAbort<H, R, E, S>(reg: Registry<H>, invoke: (H, Message, S) -> HandlerOutcome<R, E, S>, e: Event, s: S)
    requires e.Type() in reg.eventHandlers
    ensures Dispatch(reg, invoke, Evt(e), s).EventHandled?
    ensures Dispatch(reg, invoke, Evt(e), s).newMessages == RunEventHandlers(reg.eventHandlers[e.Type()], Evt(e), s, invoke).0
  {
  }

  /** The handlers of the handlers module that the tables name. */
  datatype HandlerName =
    | AllocateLine               // handlers.allocate
    | AddBatch                   // handlers.add_batch
    | ChangeQuantity             // handlers.change_batch_quantity
    | PublishAllocatedEvent      // handlers.publish_allocated_event
    | AddAllocationToReadModel   // handlers.add_allocation_to_read_model
    | RemoveAllocationFromReadModel
    | Reallocate
    | SendOutOfStockNotification

  /**
   * EVENT_HANDLERS and COMMAND_HANDLERS as registered: every event has a
   * list of handlers registered for its type, and every command a handler.
   */
  function Handlers(): (r: Registry<HandlerName>)
    ensures forall e: Event :: e.Type() in r.eventHandlers
    ensures forall c: Command :: c.Type() in r.commandHandlers
  {
    Registry(
      map[
        AllocatedType := [PublishAllocatedEvent, AddAllocationToReadModel],
        DeallocatedType := [RemoveAllocationFromReadModel, Reallocate],
        OutOfStockType := [SendOutOfStockNotification]
      ],
      map[
        AllocateType := AllocateLine,
        CreateBatchType := AddBatch,
        ChangeBatchQuantityType := ChangeQuantity
      ])
  }

  /**
   * With the registered tables no command or event lacks a handler, so
   * `handle` fails only when a command handler raises or a message is
   * neither a command nor an event.
   */
  lemma RegisteredTablesAreComplete<R, E, S>(invoke: (HandlerName, Message, S) -> HandlerOutcome<R, E, S>, m: Message, s: S)
    ensures Dispatch(Handlers(), invoke, m, s).Failed? ==>
              match Dispatch(Handlers(), invoke, m, s).failure
              case HandlerFailed(_) => m.Cmd?
              case NotAMessage(_) => m.Other?
              case NoHandler(_) => false
  {
  }

}
