# Claude agent tool coordination, modelled in Dafny

This project models two parts of the Claude agent integration of the Temporal
Python SDK (`temporalio/contrib/claude_agent`):

- **The tool handler registry and handler discovery** (`_tool_decorator.py`),
  in `tool_decorator.dfy`, module `ToolDecorator`. A `ToolRegistry` maps tool
  names to `ToolHandler` entries. A later registration of a name replaces the
  earlier one. A process-wide `RegistryTable` keeps one registry per workflow
  instance id. The `claude_tool` decorator tags a function with a tool name
  and an execution mode. `register_tool_handlers` scans the attributes of a
  workflow instance and registers every tagged callable. The scan is a loop
  proved against the specification function `ScanAll`.
- **The message buffers and the tool coordinator** of `ClaudeMessageReceiver`
  (`_workflow_helpers.py`), in `workflow_helpers.dfy`, module
  `WorkflowHelpers`. The class keeps an inbound message list with its
  readiness flag and an outbound string list. It also keeps the stored tool
  results and the "set" flag of each result event, both keyed by tool id.
  Its invariant `Valid()` holds after every operation:
  - the readiness flag is set exactly when inbound messages are buffered;
  - a result event exists exactly when a result is stored, and it is set;
  - each result is stored under its own tool id and is well formed.
    A successful result carries no error and no interrupt; its output is
    what the handler returned, which may be `None`. A failed one carries an
    error and no output.

`scenarios.dfy` (module `Scenarios`) drives both parts through the unit tests
of `tests/contrib/claude_agent/test_phase3_tool_decorator.py`. It also runs
sequences of receiver calls: request then fetch twice, two requests fetched
in reverse order, three receives then two waits, two sends then two consumes.
Its methods create their own objects, so what they promise follows from the
operations' contracts alone.
`wrappers.dfy` holds the `Option` type.

How the Python code's runtime parts are represented:

- A handler is known by the name under which the instance exposes it
  (`HandlerRef`). What the handlers do is a `Behaviour`, an input of
  `RequestToolExecution`. It maps a handler name, a tool id and an input to
  an `Outcome`: the handler returned a text or `None`, raised `ToolDenied`,
  or raised another exception whose `str()` is given. Dispatch applies the
  `Behaviour` to the handler of the registry's entry, with the request's id
  and input. A handler that returns a value Pydantic does not accept as
  `str | None` makes the success `ToolResult` fail validation inside the
  `try`; that case is `Raises` with the validation error's text. A value
  Pydantic coerces to a text (such as `bytes`) is `Returns` with that text.
- Python's `id()` of the workflow instance is an integer parameter.
- `dir()` plus `getattr()` become a sequence of `Attribute` records, in the
  order `dir()` lists them. Reading each one either raises (`Faulting`) or
  yields a value with a callability flag and an optional tag.
- The wait in `wait_for_claude_messages` becomes a `timedOut` input. When the
  wait did not time out, the method requires the readiness flag to be set.
- The wait in `get_tool_result` becomes a precondition: the id's event is
  absent or set.
- Each `request_tool_execution` runs as one atomic step.

Behaviour of the code the model keeps:

- A repeated tool id silently overwrites the earlier event and result
  (`_workflow_helpers.py` lines 189 and 226). It is not rejected.
- The no-handler error text is `"No handler registered for tool: "` followed
  by the tool name.
- The readiness flag is set on every inbound append, not only when the list
  was empty. Under `Valid()` this makes no difference.
- The execution mode of an entry is stored but never consulted during
  dispatch. A handler tagged `"claude"` is invoked like any other.

## Model

| member | source | states |
|---|---|---|
| `ToolDecorator.ToolRegistry.constructor` | temporalio/contrib/claude_agent/_tool_decorator.py:46-54 | a new registry holds no handlers |
| `ToolDecorator.ToolRegistry.Register` | temporalio/contrib/claude_agent/_tool_decorator.py:56-73 | afterwards `Has(name)` holds and `Get(name)` is the entry with that name, mode and handler (a previous entry is replaced); every other name's lookup is unchanged; entries stay stored under their own names |
| `ToolDecorator.ToolRegistry.Get` | temporalio/contrib/claude_agent/_tool_decorator.py:75-84 | returns an entry exactly when the name is registered, and in a valid registry that entry's `tool_name` is the requested name |
| `ToolDecorator.ToolRegistry.Has` | temporalio/contrib/claude_agent/_tool_decorator.py:86-95 | true exactly when `Get` returns an entry, so `Get` returns None exactly when `Has` is false |
| `ToolDecorator.RegistryTable.constructor` | temporalio/contrib/claude_agent/_tool_decorator.py:98-99 | the process-wide table starts empty |
| `ToolDecorator.RegistryTable.GetToolRegistry` | temporalio/contrib/claude_agent/_tool_decorator.py:102-114 | returns the stored registry of the id and changes nothing when one exists; otherwise stores and returns a fresh empty registry under that id and leaves the other ids alone |
| `ToolDecorator.RegistryTable.ClearToolRegistry` | temporalio/contrib/claude_agent/_tool_decorator.py:117-127 | removes exactly that id's entry; an absent id leaves the table as it was |
| `ToolDecorator.ClaudeTool` | temporalio/contrib/claude_agent/_tool_decorator.py:130-182 | the decorated function keeps its callability and carries exactly the given tool name and mode |
| `ToolDecorator.ClaudeToolDefaultsToWorkflow` | temporalio/contrib/claude_agent/_tool_decorator.py:132 | a tag given without a mode carries mode `"workflow"` |
| `ToolDecorator.ClaudeToolOuterWins` | temporalio/contrib/claude_agent/_tool_decorator.py:176-180 | decorating twice leaves only the last tag applied |
| `ToolDecorator.ScanDomain` | temporalio/contrib/claude_agent/_tool_decorator.py:199-205 | after the scan a name is registered exactly when it was before or some readable, callable, tagged attribute carries it |
| `ToolDecorator.ScanLastWins` | temporalio/contrib/claude_agent/_tool_decorator.py:199-205 | the entry of a name is the one built from the last attribute that registers it: its tag's name and mode, and the attribute as handler |
| `ToolDecorator.ScanUntouched` | temporalio/contrib/claude_agent/_tool_decorator.py:199-208 | a name no attribute registers (faulting, untagged or non-callable ones all skipped) keeps its previous entry or stays absent |
| `ToolDecorator.ScanKeyedByName` | temporalio/contrib/claude_agent/_tool_decorator.py:199-205 | the scan keeps every entry stored under its own tool name |
| `ToolDecorator.RegisterToolHandlers` | temporalio/contrib/claude_agent/_tool_decorator.py:185-210 | returns the id's registry, fetched or created as `get_tool_registry` does, whose handlers are `ScanAll` of the previous ones over the attributes in order; it never fails; registries of other ids are unchanged |
| `WorkflowHelpers.DispatchResult` | temporalio/contrib/claude_agent/_workflow_helpers.py:192-223 | the result carries the request's id and is well formed; without an entry it fails with the no-handler message naming the tool and no interrupt; with an entry, the outcome of running that entry's handler on the request's id and input decides it: success with the returned text or `None` exactly when the handler returned, otherwise the denial's message or the exception text, with an interrupt exactly when a denial asked for one |
| `WorkflowHelpers.NotFound` | temporalio/contrib/claude_agent/_workflow_helpers.py:253-258 | a well-formed failure for the id with error `"Tool result not found"` and no interrupt |
| `WorkflowHelpers.NoHandlerErrorNamesTool` | temporalio/contrib/claude_agent/_workflow_helpers.py:195-201 | the no-handler error ends with the requested tool name |
| `WorkflowHelpers.ClaudeMessageReceiver.constructor` | temporalio/contrib/claude_agent/_workflow_helpers.py:57-74 | all buffers and tool maps start empty with the flag clear, the invariant holds, and the registry is the instance's registry after discovery: fetched, or created fresh and stored under the id, as `register_tool_handlers` does (`_tool_decorator.py:196-210`); the table's other ids and every other registry's handlers are unchanged |
| `WorkflowHelpers.ClaudeMessageReceiver.ReceiveClaudeMessage` | temporalio/contrib/claude_agent/_workflow_helpers.py:76-92 | appends the message at the end of the inbound list and sets the flag; nothing else changes |
| `WorkflowHelpers.ClaudeMessageReceiver.WaitForClaudeMessages` | temporalio/contrib/claude_agent/_workflow_helpers.py:94-118 | timed out or not, returns the buffered inbound messages in arrival order and leaves the list empty and the flag clear; the result is empty exactly when the flag was clear, so a wait that did not time out returns something |
| `WorkflowHelpers.ClaudeMessageReceiver.GetClaudeMessages` | temporalio/contrib/claude_agent/_workflow_helpers.py:120-132 | returns the buffered inbound messages in arrival order, leaves the list empty and the flag clear |
| `WorkflowHelpers.ClaudeMessageReceiver.GetAndConsumeMessages` | temporalio/contrib/claude_agent/_workflow_helpers.py:134-150 | returns the queued outbound messages in order and leaves the queue empty |
| `WorkflowHelpers.ClaudeMessageReceiver.SendToClaude` | temporalio/contrib/claude_agent/_workflow_helpers.py:152-161 | appends the message at the end of the outbound queue; nothing else changes |
| `WorkflowHelpers.ClaudeMessageReceiver.RequestToolExecution` | temporalio/contrib/claude_agent/_workflow_helpers.py:175-227 | stores under the request's id the result of running the handler of the registry's entry for the tool (or the no-handler failure), and leaves that id's event set, overwriting a previous one; other ids are unchanged |
| `WorkflowHelpers.ClaudeMessageReceiver.GetToolResult` | temporalio/contrib/claude_agent/_workflow_helpers.py:229-260 | returns the stored result of the id, or the not-found failure when none is stored, and removes the id's result and event |
| `WorkflowHelpers.ClaudeMessageReceiver.GetRegisteredTools` | temporalio/contrib/claude_agent/_workflow_helpers.py:262-270 | returns each registered tool name exactly once and nothing else, and changes no state |
| `Scenarios.ToolDeniedInterruptFlag` | tests/contrib/claude_agent/test_phase3_tool_decorator.py:61-74 | `ToolDenied(msg)` keeps the message and does not interrupt; with `interrupt` true it does |
| `Scenarios.DecoratorMarksFunction` | tests/contrib/claude_agent/test_phase3_tool_decorator.py:49-58 | `claude_tool("MyTool", execution="activity")` tags with exactly that name and mode |
| `Scenarios.RegisterAndGetScenario` | tests/contrib/claude_agent/test_phase3_tool_decorator.py:32-47 | after registering "TestTool", it is present with that name and mode and "OtherTool" is absent |
| `Scenarios.LastWriterWinsScenario` | temporalio/contrib/claude_agent/_tool_decorator.py:69-73 | after two registrations of one name, the entry is the second one |
| `Scenarios.HandlerRegistrationScenario` | tests/contrib/claude_agent/test_phase3_tool_decorator.py:128-155 | discovery on the mock instance registers "Read" with mode `"workflow"` and "Write" with mode `"activity"`, skips the untagged attributes and a faulting `broken` attribute, which the model adds beyond the test's `MockWorkflow` (test lines 132-139), and does not register "Bash" |
| `Scenarios.RegistryTableScenario` | temporalio/contrib/claude_agent/_tool_decorator.py:102-127 | two fetches for one id give the same registry; after clearing the id, a fetch gives an empty one |
| `Scenarios.PopOnceScenario` | temporalio/contrib/claude_agent/_workflow_helpers.py:245-258 | the Echo handler's output "42", taken from the request's input, is handed out once as a success; the second fetch of the id gives the not-found failure |
| `Scenarios.LastHandlerRunsScenario` | temporalio/contrib/claude_agent/_workflow_helpers.py:192-210 | when discovery registers "Bash" twice, dispatch runs the handler registered last |
| `Scenarios.NoHandlerScenario` | temporalio/contrib/claude_agent/_workflow_helpers.py:195-201 | a request for an unregistered tool gives a failure naming the tool, without interrupt |
| `Scenarios.DeniedScenario` | temporalio/contrib/claude_agent/_workflow_helpers.py:211-217 | a denial with interrupt gives a failure with the denial's message and the interrupt flag set |
| `Scenarios.FaultScenario` | temporalio/contrib/claude_agent/_workflow_helpers.py:218-223 | a handler that raises another exception (Echo without its input key) gives a failure with the exception's text and no interrupt |
| `Scenarios.SharedTableScenario` | temporalio/contrib/claude_agent/_tool_decorator.py:98-114 | two receivers built on one process-wide table under different instance ids get distinct registries, each holding only its own instance's handlers |
| `Scenarios.NoneReturnScenario` | temporalio/contrib/claude_agent/_workflow_helpers.py:205-210 | a handler that returns `None` gives a success with no output, no error and no interrupt, since `result: str \| None` accepts it |
| `Scenarios.IndependentIdsScenario` | temporalio/contrib/claude_agent/_workflow_helpers.py:226-251 | consuming one id's result leaves another id's result to be fetched |
| `Scenarios.DrainInOrderScenario` | temporalio/contrib/claude_agent/_workflow_helpers.py:91-118 | three received messages come out of one wait in arrival order; a timed-out wait after it returns nothing |
| `Scenarios.OutboundScenario` | temporalio/contrib/claude_agent/_workflow_helpers.py:148-161 | two sent messages come out of one consume in call order; a second consume returns nothing |

## Left out

- Suspension and time: `asyncio.Event.wait()`, `asyncio.wait_for` and real
  float timeouts are replaced by a precondition and a "timed out" input.
  Interleavings with other signals are not modelled.
- `RequestToolExecution`: concurrency inside a request is not modelled. The
  handler's await (line 205) is one atomic step, so the window where the event
  exists but is not yet set is never observable, and the invariant says
  every event is set.
- Temporal's signal, update, query and workflow decorators, replay, history
  recording and `workflow.logger` belong to the host runtime.
- Pydantic `model_validate` and `model_dump` are library serialisation.
  Requests and results are Dafny datatypes. Numbers in JSON values are
  integers; floating point is not modelled.
- The lazy `hasattr(...)` re-initialisation guards of every receiver method
  and of `ClaudeMessageReceiver.get_tool_registry` (lines 165-173): the
  constructor is `init_claude_receiver`, so the receiver is always
  initialised.
- `_pending_tool_requests` and `_tool_request_event` (lines 68 and 70) are
  not modelled. The first is used only by the left-out init guard at line
  182; the second is never used after initialisation.
- WorkflowHelpers.DispatchResult: assumes a handler either returns or raises
  an `Exception`. A `BaseException` that is not an `Exception` (for example
  `asyncio.CancelledError`) escapes both `except` clauses at lines 211 and
  218. The event created at line 189 then stays unset and no result is
  stored. The model cannot express this because each request is one atomic
  step that always stores a result. A `None` return is modelled as
  `Returns(None)`. A return value Pydantic does not accept as `str | None`
  is modelled as `Raises` carrying the validation error's text.
- Handler bodies (activity calls, application denial logic) are represented
  by the abstract `Behaviour`. Suspending work inside a handler is not
  modelled.
- Python reflection: `dir()` ordering and `getattr`, `hasattr` and `callable`
  are an explicit attribute sequence. An attribute that has
  `_claude_tool_name` but not `_claude_tool_execution` makes the scan raise
  and skip it; the model writes it down as a `Faulting` attribute.
- WorkflowHelpers.ClaudeMessageReceiver.GetRegisteredTools: does not state
  the order of the names. The Python code lists them in the dictionary's
  insertion order, which the model's `map` does not record.
- The integration workflow of the phase-3 test and the phase-1 and phase-2
  test files need a live server, an API key and model responses. They contain
  no logic to model.
