/**
 * The message buffers and the tool coordinator that a Claude agent workflow
 * inherits from `ClaudeMessageReceiver`.
 *
 * Every operation runs as one atomic step: the suspension in
 * `wait_for_claude_messages` is replaced by a "timed out" input, the one in
 * `get_tool_result` by the precondition that the result event is absent or
 * set.  What the workflow's handlers do is a `Behaviour`: for the handler
 * named by a registry entry, the tool id and the input, the `Outcome` of
 * running it.
 */
module WorkflowHelpers {
  import opened Wrappers
  import opened ToolDecorator

  /** A JSON-like structured value, as carried by messages and tool inputs. */
  datatype Json =
    | JNull
    | JBool(b: bool)
    | JNumber(n: int)
    | JString(s: string)
    | JArray(items: seq<Json>)
    | JObject(fields: map<string, Json>)

  /** A message received from the Claude session (`dict[str, Any]`). */
  type Message = map<string, Json>

  /** A request to execute a tool in the workflow. */
  datatype ToolRequest = ToolRequest(toolId: string, toolName: string, input: map<string, Json>)

  /** The result of one tool execution. */
  datatype ToolResult = ToolResult(
    toolId: string,
    success: bool,
    result: Option<string> := None,
    error: Option<string> := None,
    interrupt: bool := false)

  /**
   * A successful result carries no error and never asks for an interrupt (its
   * output is whatever the handler returned, `None` included); a failed one
   * carries an error and no output.
   */
  ghost predicate WellFormed(r: ToolResult)
  {
    && (r.success ==> r.error.None? && !r.interrupt)
    && (!r.success ==> r.result.None? && r.error.Some?)
  }

  /**
   * What a handler did when invoked: returned a text or `None` (the field
   * `result: str | None` accepts both), raised `ToolDenied`, or raised another
   * exception.  A return value Pydantic does not accept as `str | None`
   * makes building the success result raise a validation error, which is
   * `Raises` with that error's text; one it coerces to a text is `Returns`.
   */
  datatype Outcome =
    | Returns(output: Option<string>)
    | Denied(denial: ToolDenied)
    | Raises(text: string)  // `str(e)` of the exception

  /** `handler.handler(tool_id, input)`: what running a given handler on a request yields. */
  type Behaviour = (HandlerRef, string, map<string, Json>) -> Outcome

  const NoHandlerPrefix: string := "No handler registered for tool: "
  const NotFoundMessage: string := "Tool result not found"

  /**
   * The result `request_tool_execution` stores for `request`, given the
   * registry's entry for its tool (if any): without an entry a failure naming
   * the tool; otherwise the mapped outcome of running that entry's handler on
   * the request's id and input.
   */
  function DispatchResult(request: ToolRequest, entry: Option<ToolHandler>, behaviour: Behaviour): (r: ToolResult)
    ensures r.toolId == request.toolId && WellFormed(r)
    ensures entry.None? ==> !r.success && !r.interrupt && r.error == Some(NoHandlerPrefix + request.toolName)
    ensures entry.Some? ==>
              var outcome := behaviour(entry.value.handler, request.toolId, request.input);
              && (r.success <==> outcome.Returns?)
              && (r.interrupt <==> outcome.Denied? && outcome.denial.interrupt)
              && (outcome.Returns? ==> r.result == outcome.output)
              && (outcome.Denied? ==> r.error == Some(outcome.denial.message))
              && (outcome.Raises? ==> r.error == Some(outcome.text))
  {
    match entry
    case None =>
      ToolResult(request.toolId, false, error := Some(NoHandlerPrefix + request.toolName))
    case Some(handler) =>
      match behaviour(handler.handler, request.toolId, request.input)
      case Returns(output) => ToolResult(request.toolId, true, result := output)
      case Denied(denial) =>
        ToolResult(request.toolId, false, error := Some(denial.message), interrupt := denial.interrupt)
      case Raises(text) => ToolResult(request.toolId, false, error := Some(text))
  }

  /** The failure `get_tool_result` returns when no result is stored for `toolId`. */
  function NotFound(toolId: string): (r: ToolResult)
    ensures r.toolId == toolId && WellFormed(r) && !r.success && !r.interrupt
    ensures r.error == Some(NotFoundMessage)
  {
    ToolResult(toolId, false, error := Some(NotFoundMessage))
  }

  /** The no-handler error names the requested tool. */
  lemma NoHandlerErrorNamesTool(request: ToolRequest, behaviour: Behaviour)
    ensures DispatchResult(request, None, behaviour).error.value[|NoHandlerPrefix|..] == request.toolName
  {
  }

  /** The buffers and tool bookkeeping of `ClaudeMessageReceiver`. */
  class ClaudeMessageReceiver {
    var messages: seq<Message>                  // `_claude_messages`
    var messageReady: bool                      // `_claude_message_event` is set
    var outgoing: seq<string>                   // `_claude_outgoing`
    var toolResults: map<string, ToolResult>    // `_tool_results`
    var toolResultEvents: map<string, bool>     // `_tool_result_events`, each event's "set" flag
    var registry: ToolRegistry                  // `_tool_registry`

    /**
     * The readiness flag is set exactly when inbound messages are buffered;
     * every stored result has a set event and vice versa; each result is
     * stored under its own tool id and is well formed.
     */
    ghost predicate Valid()
      reads this
    {
      && messageReady == (messages != [])
      && toolResultEvents.Keys == toolResults.Keys
      && (forall id :: id in toolResultEvents ==> toolResultEvents[id])
      && (forall id :: id in toolResults ==> toolResults[id].toolId == id && WellFormed(toolResults[id]))
    }

    /** `init_claude_receiver`: empty buffers, and the handlers discovered on the instance. */
    constructor (table: RegistryTable, instanceId: int, attrs: seq<Attribute>)
      requires table.Valid()
      modifies table, table.registries.Values
      ensures Valid()
      ensures messages == [] && !messageReady && outgoing == []
      ensures toolResults == map[] && toolResultEvents == map[]
      ensures table.Valid() && instanceId in table.registries && registry == table.registries[instanceId]
      ensures registry.handlers ==
                ScanAll(if old(instanceId in table.registries) then old(table.registries[instanceId].handlers) else map[], attrs)
      ensures old(instanceId in table.registries) ==> table.registries == old(table.registries)
      ensures old(instanceId !in table.registries) ==>
                fresh(registry) && table.registries == old(table.registries)[instanceId := registry]
      ensures forall r :: r in old(table.registries.Values) && r != registry ==> r.handlers == old(r.handlers)
    {
      messages := [];
      outgoing := [];
      messageReady := false;
      toolResults := map[];
      toolResultEvents := map[];
      var discovered := RegisterToolHandlers(table, instanceId, attrs);
      registry := discovered;
    }

    /** `receive_claude_message`: buffers an inbound message and sets the readiness flag. */
    method ReceiveClaudeMessage(message: Message)
      requires Valid()
      modifies this`messages, this`messageReady
      ensures Valid()
      ensures messages == old(messages) + [message] && messageReady
    {
      messages := messages + [message];
      messageReady := true;
    }

    /**
     * `wait_for_claude_messages`: once the readiness flag is set, or the
     * timeout has elapsed, hands over every buffered inbound message in
     * arrival order and leaves the buffer empty and the flag clear.
     */
    method WaitForClaudeMessages(timedOut: bool) returns (received: seq<Message>)
      requires Valid()
      requires messageReady || timedOut
      modifies this`messages, this`messageReady
      ensures Valid()
      ensures received == old(messages) && messages == [] && !messageReady
      ensures received == [] <==> !old(messageReady)
      ensures !timedOut ==> received != []
    {
      received := messages;
      messages := [];
      messageReady := false;
    }

    /** `get_claude_messages`: the same hand-over, without waiting. */
    method GetClaudeMessages() returns (received: seq<Message>)
      requires Valid()
      modifies this`messages, this`messageReady
      ensures Valid()
      ensures received == old(messages) && messages == [] && !messageReady
    {
      received := messages;
      messages := [];
      messageReady := false;
    }

    /** `get_and_consume_messages`: hands over the queued outbound messages and empties the queue. */
    method GetAndConsumeMessages() returns (sent: seq<string>)
      modifies this`outgoing
      ensures sent == old(outgoing) && outgoing == []
    {
      sent := outgoing;
      outgoing := [];
    }

    /** `send_to_claude`: queues an outbound message. */
    method SendToClaude(message: string)
      modifies this`outgoing
      ensures outgoing == old(outgoing) + [message]
    {
      outgoing := outgoing + [message];
    }

    /**
     * `request_tool_execution`: creates the result event for the request's
     * id, runs the handler the registry holds for the request's tool on the
     * request's id and input, stores the result and sets the event.  A
     * repeated id overwrites the earlier event and result.
     */
    method RequestToolExecution(request: ToolRequest, behaviour: Behaviour)
      requires Valid()
      modifies this`toolResults, this`toolResultEvents
      ensures Valid()
      ensures toolResults == old(toolResults)[request.toolId := DispatchResult(request, registry.Get(request.toolName), behaviour)]
      ensures toolResultEvents == old(toolResultEvents)[request.toolId := true]
    {
      toolResultEvents := toolResultEvents[request.toolId := false];
      var handler := registry.Get(request.toolName);
      var result := DispatchResult(request, handler, behaviour);
      toolResults := toolResults[request.toolId := result];
      toolResultEvents := toolResultEvents[request.toolId := true];
    }

    /**
     * `get_tool_result`: pops the stored result for `toolId` and deletes its
     * event; without a stored result, returns the not-found failure.
     */
    method GetToolResult(toolId: string) returns (r: ToolResult)
      requires Valid()
      requires toolId in toolResultEvents ==> toolResultEvents[toolId]
      modifies this`toolResults, this`toolResultEvents
      ensures Valid()
      ensures r.toolId == toolId && WellFormed(r)
      ensures r == if old(toolId in toolResults) then old(toolResults[toolId]) else NotFound(toolId)
      ensures toolResults == old(toolResults) - {toolId}
      ensures toolResultEvents == old(toolResultEvents) - {toolId}
    {
      var popped := if toolId in toolResults then Some(toolResults[toolId]) else None;
      toolResults := toolResults - {toolId};
      if toolId in toolResultEvents {
        toolResultEvents := toolResultEvents - {toolId};
      }
      if popped.None? {
        r := NotFound(toolId);
      } else {
        r := popped.value;
      }
    }

    /** `get_registered_tools`: the registry's tool names, each once. */
    method GetRegisteredTools() returns (names: seq<string>)
      ensures forall name :: name in names <==> name in registry.handlers
      ensures forall i, j :: 0 <= i < j < |names| ==> names[i] != names[j]
      ensures |names| == |registry.handlers|
    {
      var remaining := registry.handlers.Keys;
      names := [];
      while remaining != {}
        invariant remaining <= registry.handlers.Keys
        invariant forall name :: name in names <==> name in registry.handlers && name !in remaining
        invariant forall i, j :: 0 <= i < j < |names| ==> names[i] != names[j]
        invariant |names| + |remaining| == |registry.handlers|
        decreases remaining
      {
        var name :| name in remaining;
        names := names + [name];
        remaining := remaining - {name};
      }
    }
  }
}
