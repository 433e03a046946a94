/** The conversation loop of `main`: call the model, scan its response,
    dispatch the pending tool-use block to the client that serves it, fold
    the result or the error back into the history, and close every client
    when the loop ends normally.

    The model and the tool servers are oracles. `respond(h, k)` is the
    content the model returns for history `h` on the `k`-th model call of the
    run (the system prompt, tool catalog and sampling settings are fixed for
    a run, and equal histories need not get equal answers). `callTool(c, b, k)` is the
    outcome of the `k`-th tool call of the run, made on client `c` for block
    `b`. A run records what it did as a log of events. */
module Orchestrator {
  import opened Types
  import opened Scan
  import opened Routing

  datatype Event =
    | ModelCalled(history: seq<Message>, response: seq<ContentBlock>)
    | ToolCalled(client: ClientId, block: ToolUseBlock, outcome: ToolOutcome)

  /** How a run ended. `Finished` is the normal end of the loop, after the
      clients are closed; `ToolServerNotFound` is the error `main` throws;
      `OutOfFuel` means the loop was still running after `fuel` tool calls. */
  datatype Exit = Finished | ToolServerNotFound(message: string) | OutOfFuel

  datatype RunResult = RunResult(exit: Exit, history: seq<Message>, events: seq<Event>, closed: seq<ClientId>)

  /** What `main` works with once the clients are connected: the user's
      question, `toolServerMap`, the iteration bound and the two oracles. */
  datatype Setup = Setup(
    question: string,
    route: seq<RouteEntry>,
    maxIterations: nat,
    respond: (seq<Message>, nat) -> seq<ContentBlock>,
    callTool: (ClientId, ToolUseBlock, nat) -> ToolOutcome)

  /** Stand-in for `JSON.stringify` of a tool-use block. */
  function RenderToolUse(b: ToolUseBlock): string
  {
    "{\"type\":\"tool_use\",\"id\":\"" + b.id + "\",\"name\":\"" + b.name + "\",\"input\":" + b.input + "}"
  }

  /** The user message a failed tool call leaves in the history. */
  function FailureMessage(b: ToolUseBlock, error: string): Message
  {
    Message(User, "ToolUser: " + RenderToolUse(b) + ", Error: " + error)
  }

  /** The user messages a successful tool call leaves in the history. */
  function ResultMessages(items: seq<ResultItem>): seq<Message>
  {
    if items == [] then []
    else ResultMessages(items[..|items| - 1]) + [Message(User, items[|items| - 1].text)]
  }

  /** One user message per result item, carrying the item's text, in
      result order. */
  lemma {:induction false} ResultMessagesAt(items: seq<ResultItem>)
    ensures |ResultMessages(items)| == |items|
    ensures forall i :: 0 <= i < |items| ==> ResultMessages(items)[i] == Message(User, items[i].text)
    decreases |items|
  {
    if items != [] {
      ResultMessagesAt(items[..|items| - 1]);
    }
  }

  /** The loop over `toolResult.content`: each item becomes a user message
      appended after the existing history. */
  method FanOutToolResult(messages: seq<Message>, items: seq<ResultItem>) returns (updated: seq<Message>)
    ensures updated == messages + ResultMessages(items)
  {
    updated := messages;
    for i := 0 to |items|
      invariant updated == messages + ResultMessages(items[..i])
    {
      assert items[..i + 1][..i] == items[..i];
      updated := updated + [Message(User, items[i].text)];
    }
    assert items[..|items|] == items;
  }

  /** The messages an event adds to the history. */
  function EventMessages(e: Event): seq<Message>
  {
    match e
    case ModelCalled(_, response) => TextMessages(response)
    case ToolCalled(_, b, Succeeded(items)) => ResultMessages(items)
    case ToolCalled(_, b, Failed(error)) => [FailureMessage(b, error)]
  }

  /** The history a log of events builds after the first user message. */
  function Replay(events: seq<Event>): seq<Message>
  {
    if events == [] then [] else Replay(events[..|events| - 1]) + EventMessages(events[|events| - 1])
  }

  /** The tool-use block pending after the events: the last one of the
      latest model response. */
  function Pending(events: seq<Event>): Option<ToolUseBlock>
  {
    if events == [] then None
    else match events[|events| - 1]
      case ModelCalled(_, response) => LastToolUse(response)
      case ToolCalled(_, _, _) => Pending(events[..|events| - 1])
  }

  function ModelCallCount(events: seq<Event>): nat
  {
    if events == [] then 0
    else ModelCallCount(events[..|events| - 1]) + if events[|events| - 1].ModelCalled? then 1 else 0
  }

  function ToolCallCount(events: seq<Event>): nat
  {
    if events == [] then 0
    else ToolCallCount(events[..|events| - 1]) + if events[|events| - 1].ToolCalled? then 1 else 0
  }

  /** Tool calls that returned a result rather than an error. */
  function SuccessCount(events: seq<Event>): nat
  {
    if events == [] then 0
    else
      var e := events[|events| - 1];
      SuccessCount(events[..|events| - 1]) + if e.ToolCalled? && e.outcome.Succeeded? then 1 else 0
  }


  predicate LastSucceeded(events: seq<Event>)
  {
    events != [] && events[|events| - 1].ToolCalled? && events[|events| - 1].outcome.Succeeded?
  }

  predicate LastFailed(events: seq<Event>)
  {
    events != [] && events[|events| - 1].ToolCalled? && events[|events| - 1].outcome.Failed?
  }

  /** Whether `e` may follow the events `log` in a run of `main`.
      A model call comes first, or right after a successful tool call, and is
      given the whole history built so far. A tool call comes after a model
      call or a failed tool call, while fewer than `maxIterations` tool calls
      have succeeded; it is for the pending block, on the client the route
      gives for the block's name, and its outcome is the tool's answer. */
  predicate Allowed(s: Setup, log: seq<Event>, e: Event)
  {
    match e
    case ModelCalled(history, response) =>
      (log == [] || LastSucceeded(log)) &&
      history == [Message(User, s.question)] + Replay(log) &&
      response == s.respond(history, ModelCallCount(log))
    case ToolCalled(client, block, outcome) =>
      log != [] && !LastSucceeded(log) &&
      SuccessCount(log) < s.maxIterations &&
      Pending(log) == Some(block) &&
      Lookup(s.route, block.name) == Some(client) &&
      outcome == s.callTool(client, block, ToolCallCount(log))
  }

  /** Every event of the log is allowed after the events before it. */
  predicate ValidLog(s: Setup, events: seq<Event>)
  {
    events == [] ||
    (ValidLog(s, events[..|events| - 1]) && Allowed(s, events[..|events| - 1], events[|events| - 1]))
  }

  lemma {:induction false} ValidLogPrefix(s: Setup, events: seq<Event>, k: nat)
    requires ValidLog(s, events) && k <= |events|
    ensures ValidLog(s, events[..k])
    decreases |events|
  {
    if k < |events| {
      var front := events[..|events| - 1];
      assert events[..k] == front[..k];
      ValidLogPrefix(s, front, k);
    } else {
      assert events[..k] == events;
    }
  }

  /** Each event of a valid log is allowed after the events before it. */
  lemma EventAllowed(s: Setup, events: seq<Event>, i: nat)
    requires ValidLog(s, events) && i < |events|
    ensures Allowed(s, events[..i], events[i])
  {
    ValidLogPrefix(s, events, i + 1);
    assert events[..i + 1][..i] == events[..i];
  }

  /** The history built by a prefix of the log is a prefix of the history
      built by the whole log: the history is only ever appended to. */
  lemma {:induction false} ReplayPrefix(events: seq<Event>, k: nat)
    requires k <= |events|
    ensures Replay(events[..k]) <= Replay(events)
    decreases |events|
  {
    if k < |events| {
      var front := events[..|events| - 1];
      assert events[..k] == front[..k];
      ReplayPrefix(front, k);
    } else {
      assert events[..k] == events;
    }
  }

  /** At most `maxIterations` tool calls succeed, and every model call but
      the first follows a successful tool call; so there are at most
      `maxIterations + 1` model calls. */
  lemma {:induction false} DispatchBound(s: Setup, events: seq<Event>)
    requires ValidLog(s, events)
    ensures SuccessCount(events) <= s.maxIterations
    ensures events != [] ==>
              ModelCallCount(events) + (if LastSucceeded(events) then 1 else 0) == SuccessCount(events) + 1
    ensures ModelCallCount(events) <= s.maxIterations + 1
    decreases |events|
  {
    if events != [] {
      var front := events[..|events| - 1];
      DispatchBound(s, front);
    }
  }

  /** A failed tool call adds exactly one message to the history, leaves the
      count of successful calls alone, and is followed by nothing but the
      identical call: no model call comes in between. */
  lemma FailedCallIsRetried(s: Setup, events: seq<Event>, i: nat)
    requires ValidLog(s, events)
    requires i + 1 < |events| && events[i].ToolCalled? && events[i].outcome.Failed?
    ensures Replay(events[..i + 1]) == Replay(events[..i]) + [FailureMessage(events[i].block, events[i].outcome.message)]
    ensures SuccessCount(events[..i + 1]) == SuccessCount(events[..i])
    ensures events[i + 1].ToolCalled?
    ensures events[i + 1].block == events[i].block && events[i + 1].client == events[i].client
  {
    ValidLogPrefix(s, events, i + 2);
    var log := events[..i + 2];
    assert log[..i + 1] == events[..i + 1];
    assert events[..i + 1][..i] == events[..i];
  }

  /** A successful tool call adds one user message per result item and is
      followed by a model call given the updated history. */
  lemma SucceededCallRecallsModel(s: Setup, events: seq<Event>, i: nat)
    requires ValidLog(s, events)
    requires i + 1 < |events| && events[i].ToolCalled? && events[i].outcome.Succeeded?
    ensures Replay(events[..i + 1]) == Replay(events[..i]) + ResultMessages(events[i].outcome.content)
    ensures events[i + 1].ModelCalled?
    ensures events[i + 1].history == [Message(User, s.question)] + Replay(events[..i + 1])
  {
    ValidLogPrefix(s, events, i + 2);
    var log := events[..i + 2];
    assert log[..i + 1] == events[..i + 1];
    assert events[..i + 1][..i] == events[..i];
  }

  /** If the first response asks for no tool, nothing follows the first
      model call: no lookup, no tool call, no further model call. */
  lemma NoToolUseNoDispatch(s: Setup, events: seq<Event>)
    requires ValidLog(s, events) && events != []
    requires LastToolUse(s.respond([Message(User, s.question)], 0)).None?
    ensures |events| == 1
  {
    EventAllowed(s, events, 0);
    assert events[..1] == [events[0]] && events[..0] == [];
    assert [Message(User, s.question)] + Replay([]) == [Message(User, s.question)];
    assert Pending(events[..1]).None?;
    if |events| > 1 {
      EventAllowed(s, events, 1);
    }
  }

  /** With a tool that fails on every call, a log that has called a tool at
      all ends on a failed call: the loop never gets back to the model. */
  lemma AlwaysFailingToolEndsOnFailure(s: Setup, events: seq<Event>)
    requires forall c, b, k :: s.callTool(c, b, k).Failed?
    requires ValidLog(s, events)
    requires ToolCallCount(events) > 0
    ensures LastFailed(events)
  {
    // A last model call would be the first event, or follow a successful call.
  }

  /** Appending an allowed event keeps the log valid and extends the
      history, the pending block and the counters accordingly. */
  lemma AppendAllowed(s: Setup, events: seq<Event>, e: Event)
    requires ValidLog(s, events) && Allowed(s, events, e)
    ensures ValidLog(s, events + [e])
    ensures Replay(events + [e]) == Replay(events) + EventMessages(e)
    ensures Pending(events + [e]) == if e.ModelCalled? then LastToolUse(e.response) else Pending(events)
    ensures ToolCallCount(events + [e]) == ToolCallCount(events) + if e.ToolCalled? then 1 else 0
    ensures ModelCallCount(events + [e]) == ModelCallCount(events) + if e.ModelCalled? then 1 else 0
    ensures SuccessCount(events + [e]) == SuccessCount(events) + if e.ToolCalled? && e.outcome.Succeeded? then 1 else 0
  {
    assert (events + [e])[..|events|] == events;
  }

  /** Proof helper only: appending to a history that is a first part
      followed by a rest (sequence associativity, stated once so that
      `DispatchTool` and `RecallModel` need not rediscover it in their
      larger contexts). */
  lemma ExtendHistory(history: seq<Message>, first: seq<Message>, replayed: seq<Message>, added: seq<Message>)
    requires history == first + replayed
    ensures history + added == first + (replayed + added)
  {
  }

  /** One tool call of the loop: the pending block goes to its client, the
      call is logged with its outcome, and a failure is folded into one user
      message while a result is fanned out into one user message per item. */
  method DispatchTool(s: Setup, events: seq<Event>, history: seq<Message>, block: ToolUseBlock, client: ClientId, toolCalls: nat)
    returns (events': seq<Event>, history': seq<Message>, outcome: ToolOutcome)
    requires ValidLog(s, events) && events != [] && !LastSucceeded(events)
    requires SuccessCount(events) < s.maxIterations
    requires Pending(events) == Some(block) && Lookup(s.route, block.name) == Some(client)
    requires toolCalls == ToolCallCount(events)
    requires history == [Message(User, s.question)] + Replay(events)
    ensures outcome == s.callTool(client, block, toolCalls)
    ensures events' == events + [ToolCalled(client, block, outcome)]
    ensures ValidLog(s, events')
    ensures history' == [Message(User, s.question)] + Replay(events')
    ensures history' == history + if outcome.Failed? then [FailureMessage(block, outcome.message)] else ResultMessages(outcome.content)
    ensures Pending(events') == Pending(events) && ModelCallCount(events') == ModelCallCount(events)
    ensures ToolCallCount(events') == toolCalls + 1
    ensures SuccessCount(events') == SuccessCount(events) + if outcome.Succeeded? then 1 else 0
  {
    outcome := s.callTool(client, block, toolCalls);
    var call := ToolCalled(client, block, outcome);
    AppendAllowed(s, events, call);
    events' := events + [call];
    var added := EventMessages(call);
    ExtendHistory(history, [Message(User, s.question)], Replay(events), added);
    if outcome.Failed? {
      history' := history + [FailureMessage(block, outcome.message)];
    } else {
      history' := FanOutToolResult(history, outcome.content);
    }
  }

  /** Calling the model again after a successful tool call and scanning its
      response: the call is logged with the history it was given, the
      response's text messages are appended, and its last tool-use block
      becomes the pending one. */
  method RecallModel(s: Setup, events: seq<Event>, history: seq<Message>, modelCalls: nat)
    returns (events': seq<Event>, history': seq<Message>, pending: Option<ToolUseBlock>)
    requires ValidLog(s, events) && LastSucceeded(events)
    requires history == [Message(User, s.question)] + Replay(events)
    requires modelCalls == ModelCallCount(events)
    ensures events' == events + [ModelCalled(history, s.respond(history, modelCalls))]
    ensures ValidLog(s, events')
    ensures history' == [Message(User, s.question)] + Replay(events')
    ensures pending == Pending(events') == LastToolUse(s.respond(history, modelCalls))
    ensures SuccessCount(events') == SuccessCount(events) && ToolCallCount(events') == ToolCallCount(events)
    ensures ModelCallCount(events') == modelCalls + 1
  {
    var response := s.respond(history, modelCalls);
    var modelCall := ModelCalled(history, response);
    AppendAllowed(s, events, modelCall);
    events' := events + [modelCall];
    ExtendHistory(history, [Message(User, s.question)], Replay(events), TextMessages(response));
    pending, history' := HandleMessageContent(response, history);
  }

  /** The loop of `main`, from the first model call to the closing of the
      clients. `fuel` bounds the number of tool calls explored: a failed call
      does not count as an iteration, so the loop of the source need not end. */
  method Run(s: Setup, fuel: nat) returns (r: RunResult)
    ensures ValidLog(s, r.events) && r.events != []
    ensures r.history == [Message(User, s.question)] + Replay(r.events)
    ensures r.exit.Finished? <==> Pending(r.events).None? || SuccessCount(r.events) == s.maxIterations
    ensures r.exit.Finished? ==> r.events[|r.events| - 1].ModelCalled?
    ensures r.exit.Finished? ==> r.closed == Distinct(RouteClients(s.route))
    ensures !r.exit.Finished? ==> r.closed == []
    ensures r.exit.ToolServerNotFound? ==>
              Pending(r.events).Some? && Lookup(s.route, Pending(r.events).value.name).None? &&
              r.exit.message == "Tool server not found for tool " + Pending(r.events).value.name
    ensures r.exit.OutOfFuel? ==>
              ToolCallCount(r.events) == fuel && Pending(r.events).Some? &&
              Lookup(s.route, Pending(r.events).value.name).Some?
    ensures (forall c, b, k :: s.callTool(c, b, k).Failed?) && ToolCallCount(r.events) > 0 ==> r.exit.OutOfFuel?
    ensures (forall c, b, k :: s.callTool(c, b, k).Succeeded?) && fuel >= s.maxIterations ==> !r.exit.OutOfFuel?
  {
    ghost var allFail := forall c, b, k :: s.callTool(c, b, k).Failed?;
    ghost var allSucceed := forall c, b, k :: s.callTool(c, b, k).Succeeded?;
    var history := [Message(User, s.question)];
    var response := s.respond(history, 0);
    var events := [ModelCalled(history, response)];
    assert events[..0] == [] && history == [Message(User, s.question)] + Replay([]);
    AppendAllowed(s, [], events[0]);
    assert [] + events == events;
    var pending;
    pending, history := HandleMessageContent(response, history);
    var iterationCount := 0;
    var toolCalls := 0;
    var modelCalls := 1;
    while pending.Some? && iterationCount < s.maxIterations
      invariant ValidLog(s, events) && events != []
      invariant history == [Message(User, s.question)] + Replay(events)
      invariant pending == Pending(events)
      invariant iterationCount == SuccessCount(events)
      invariant toolCalls == ToolCallCount(events) <= fuel
      invariant modelCalls == ModelCallCount(events)
      invariant !LastSucceeded(events)
      invariant LastFailed(events) ==>
                  pending.Some? && iterationCount < s.maxIterations && Lookup(s.route, pending.value.name).Some?
      invariant allFail && toolCalls > 0 ==> LastFailed(events)
      invariant allSucceed ==> toolCalls == iterationCount
      decreases fuel - toolCalls
    {
      var gate := ProcessMessages(history, pending);
      history := gate.updatedMessages;
      if !gate.proceed {
        break;
      }
      var block := pending.value;
      var client := Lookup(s.route, block.name);
      if client.None? {
        r := RunResult(ToolServerNotFound("Tool server not found for tool " + block.name), history, events, []);
        return;
      }
      if toolCalls == fuel {
        r := RunResult(OutOfFuel, history, events, []);
        return;
      }
      var outcome;
      events, history, outcome := DispatchTool(s, events, history, block, client.value, toolCalls);
      toolCalls := toolCalls + 1;
      if outcome.Failed? {
        continue;
      }
      events, history, pending := RecallModel(s, events, history, modelCalls);
      modelCalls := modelCalls + 1;
      iterationCount := iterationCount + 1;
    }
    var closed := CloseClients(s.route);
    r := RunResult(Finished, history, events, closed);
  }
}
