# mini-coder conversation core, modelled in Dafny

mini-coder is a command-line coding assistant. It sends a user's instruction to
a language model. It offers the model the tools of several MCP (Model Context
Protocol) servers, runs each tool the model asks for, and feeds the result back
into the conversation. This project models the orchestration core in
`src/cli.ts`:

- `processMessages`: the gate that decides whether the loop dispatches a tool.
- `handleMessageContent`: the scan of a model response. It appends one
  assistant message per text block to a copy of the history and keeps the last
  `tool_use` block.
- The loop of `main`:
  - it looks up the pending tool's client in `toolServerMap` and throws when
    there is none;
  - it calls the tool;
  - it fans the result items out into user messages, or folds the error into
    one user message;
  - it calls the model again, bounded by `maxIterations`;
  - at a normal end it closes every distinct client once through a `Set`.

Modules:

- `Types` (types.dfy): the data shapes. These are messages, content blocks,
  tool-use blocks, tool outcomes, and the entries of `toolServerMap` kept in
  the map's insertion order.
- `Scan` (scan.dfy): `processMessages` and `handleMessageContent`.
  - `HandleMessageContent` is a method with the source's `for…of` loop.
  - It is proved against the functions `TextMessages` and `LastToolUse`.
  - The lemmas in this module say what those functions mean.
  - The history is a sequence value, so the caller's history cannot change.
    This is the purpose of the source's copy at line 27.
- `Routing` (routing.dfy): `toolServerMap.get` and the close loop.
  - `Distinct` is the order in which iterating `new Set(values)` visits the
    clients.
- `Orchestrator` (orchestrator.dfy): the loop of `main`, as the method `Run`.
  - The model and the tool servers are oracles held in a `Setup`.
  - `respond(history, k)` is the response content on the `k`-th model call,
    given that history. The system prompt, model name and sampling settings
    are fixed for a run. Two calls with the same history may get different
    answers.
  - `callTool(client, block, k)` is the outcome of the `k`-th tool call.
  - `Run` returns an event log made of `ModelCalled(history, response)` and
    `ToolCalled(client, block, outcome)` events. It also returns the final
    history, how the run ended and the clients it closed.
  - `Allowed` and `ValidLog` give the protocol as one step relation over the
    log. `Run` is proved to produce a valid log. The final history is the
    first user message followed by `Replay(log)`. The lemmas derive the
    bounds and the retry behaviour from `ValidLog`.

## Where the code and its design differ

This model follows the code.

- **A failed tool call is retried and does not use up an iteration.** The
  `catch` (src/cli.ts:102-108) appends the error message and `continue`s.
  - It does not call the model and does not increment `iterationCount`.
  - The same pending block is therefore sent to the same client again.
  - `maxIterations` bounds only successful calls.
  - `FailedCallIsRetried` and `AlwaysFailingToolEndsOnFailure` state this.
  - So does the `Run` postcondition saying that, with a tool that always
    fails, any run that calls a tool ends `OutOfFuel`, for every fuel. Without
    the fuel bound such a run would never end.
- **No cleanup on error.** Nothing is inside a `try/finally`. When the throw at
  src/cli.ts:90 fires, no client is closed: `closed == []` whenever the exit is
  not `Finished`.
- **Dead branch.** The loop guard (src/cli.ts:80) ensures that a block is
  pending. So `processMessages` always answers "proceed" inside the loop, and
  the `break` at src/cli.ts:86 never runs. `Run` keeps the branch, and the
  contract of `ProcessMessages` shows that it is dead.

## Model

| member | source | states |
|---|---|---|
| Scan.ProcessMessages | src/cli.ts:11-20 | the history comes back element-wise equal, and the loop proceeds exactly when a tool-use block is pending |
| Scan.HandleMessageContent | src/cli.ts:22-45 | the result is the input history followed by the response's text messages, and the pending block is the response's last tool-use block |
| Scan.TextMessagesAppend | src/cli.ts:29-34 | the messages of a response are appended in block order: scanning `a + b` gives the messages of `a`, then those of `b` |
| Scan.ToolUseAppendsNothing | src/cli.ts:36-38 | a tool-use block adds no message wherever it stands in the response |
| Scan.TextMessagesOfTexts | src/cli.ts:30-34 | for a response made only of text blocks, there is exactly one assistant message per block, with that block's text, in order |
| Scan.LastToolUseNone | src/cli.ts:26-38 | no block is pending if and only if the response has no tool-use block |
| Scan.LastToolUseIsLast | src/cli.ts:36-38 | the pending block is a tool-use block of the response with no tool-use block after it, and every such block is the pending one |
| Routing.Lookup | src/cli.ts:88-89 | the lookup fails exactly when no entry has the tool's name, and otherwise returns the client of an entry with that name |
| Routing.DistinctOnce | src/cli.ts:137 | the `Set` of clients holds each client of the map exactly once and nothing else |
| Routing.CloseClients | src/cli.ts:137-141 | the clients closed are the distinct values of `toolServerMap`, in first-occurrence order |
| Orchestrator.ResultMessagesAt | src/cli.ts:111-118 | a tool result gives one user message per content item, carrying that item's text, in result order |
| Orchestrator.FanOutToolResult | src/cli.ts:111-118 | the result messages are appended after the existing history |
| Orchestrator.Run | src/cli.ts:52-141 | the run produces a valid event log, and the history is the user's question followed by `Replay` of that log. It ends `Finished` exactly when no block is pending or `maxIterations` calls have succeeded, and then closes each distinct client; otherwise it closes none. An unresolved name ends with "Tool server not found for tool <name>". With an always-failing tool, a run that calls a tool never finishes. With an always-succeeding tool, `maxIterations` tool calls suffice |
| Orchestrator.DispatchTool | src/cli.ts:93-118 | one tool call sends the pending block to its client and logs the outcome. A failure adds exactly one user message and no success; a result adds one user message per item and one success. The pending block and the model calls are unchanged |
| Orchestrator.RecallModel | src/cli.ts:120-132 | after a successful call, the model is called once more with the updated history, its text messages are appended, and its last tool-use block becomes the pending one |
| Orchestrator.DispatchBound | src/cli.ts:79-134 | at most `maxIterations` tool calls succeed. Every model call after the first follows a successful call, so there are at most `maxIterations + 1` model calls |
| Orchestrator.ReplayPrefix | src/cli.ts:104-130 | the history is append-only: the history after any prefix of the log is a prefix of the final history |
| Orchestrator.FailedCallIsRetried | src/cli.ts:102-108 | a failed call adds exactly one message, leaves the count of successful calls unchanged, and is followed only by the identical call, with no model call in between |
| Orchestrator.SucceededCallRecallsModel | src/cli.ts:111-132 | a successful call adds one user message per result item and is followed by a model call given the updated history |
| Orchestrator.NoToolUseNoDispatch | src/cli.ts:75-80 | if the first response has no tool-use block, nothing follows the first model call: no lookup, no tool call and no further model call |
| Orchestrator.AlwaysFailingToolEndsOnFailure | src/cli.ts:102-108 | with a tool that fails on every call, a log that has called a tool ends on a failed call, so the loop never gets back to the model |

## Left out

- `initializeToolsAndClients` (imported at src/cli.ts:4) is not part of this
  model. Its source is not available. The tool catalog and `toolServerMap`
  are inputs, and the catalog is folded into the `respond` oracle.
  Registering servers, skipping servers whose credentials are missing, and
  resolving duplicate tool names are therefore not modelled.
- The default `maxIterations = 10` (src/cli.ts:47) is a caller default;
  `Setup.maxIterations` is always given explicitly.
- The Anthropic `messages.create` call is the `respond` oracle. The system
  prompt, model name, `max_tokens` and temperature are constant for a run and
  are not modelled.
- The MCP `callTool` transport is the `callTool` oracle. The source rebuilds
  an `McpError` from an untyped caught value; the model keeps only the
  message. Exceptions from the model call or the transport, other than a
  failed tool call, end `main` without closing clients. Apart from
  `ToolServerNotFound`, these exits are not modelled.
- Orchestrator.Run: the source loop need not end, because failed calls do not
  count. `fuel` bounds the number of tool calls, and `OutOfFuel` stands for a
  run that is still looping.
- Tool result items are modelled as text items only. A non-text item, such as
  an image, would make `resultContent.text.slice` at src/cli.ts:112 throw.
  That crash path is not modelled.
- `client.close()` is assumed to succeed. A close that throws would leave the
  remaining clients unclosed.
- `console.log` output and its 255-character previews are not modelled.
- `JSON.stringify` of the tool-use block in the failure message is replaced
  by the fixed rendering `RenderToolUse`. No property depends on how it
  renders.
- async/await is modelled as ordinary sequential code, because the loop never
  has two calls in flight.
- The command-line set-up (src/cli.ts:144-216) is not modelled. It parses
  arguments, checks and reads files, and builds the server configuration.
