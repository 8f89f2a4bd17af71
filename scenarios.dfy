/**
 * Client code that drives the registry and the receiver through the unit
 * tests of the phase-3 test file and through request, fetch and drain
 * sequences, and states what a caller can conclude from the contracts alone.
 */
module Scenarios {
  import opened Wrappers
  import opened ToolDecorator
  import opened WorkflowHelpers

  /** `ToolDenied(msg)` does not interrupt; `interrupt := true` does. */
  lemma ToolDeniedInterruptFlag(message: string)
    ensures ToolDenied(message).message == message && !ToolDenied(message).interrupt
    ensures ToolDenied(message, interrupt := true).interrupt
  {
  }

  /** `claude_tool("MyTool", execution="activity")` tags the function with exactly that name and mode. */
  lemma DecoratorMarksFunction(func: Member)
    ensures ClaudeTool(func, "MyTool", Activity).tag == Some(ToolTag("MyTool", Activity))
  {
  }

  /** Register one tool, then look up it and another name. */
  method RegisterAndGetScenario() returns (hasTool: bool, hasOther: bool, entry: Option<ToolHandler>)
    ensures hasTool && !hasOther
    ensures entry == Some(ToolHandler("TestTool", Workflow, "handler"))
  {
    var registry := new ToolRegistry();
    registry.Register("TestTool", "handler", Workflow);
    hasTool := registry.Has("TestTool");
    hasOther := registry.Has("OtherTool");
    entry := registry.Get("TestTool");
  }

  /** Registering a name twice keeps the second registration. */
  method LastWriterWinsScenario(first: HandlerRef, second: HandlerRef) returns (entry: Option<ToolHandler>)
    ensures entry == Some(ToolHandler("Bash", Activity, second))
  {
    var registry := new ToolRegistry();
    registry.Register("Bash", first, Workflow);
    registry.Register("Bash", second, Activity);
    entry := registry.Get("Bash");
  }

  /**
   * The attributes of a mock workflow instance in `dir()` order: two
   * untagged members, one attribute whose access raises, and two decorated
   * handlers, one of them without an execution mode.  The test's mock class
   * has no raising attribute; `broken` is added here so that the scenario
   * also exercises the skipped `getattr` failure.
   */
  function MockWorkflowAttributes(): seq<Attribute>
  {
    [ Attribute("__class__", Value(Member(true, None))),
      Attribute("__dict__", Value(Member(false, None))),
      Attribute("broken", Faulting),
      Attribute("handle_read", Value(ClaudeTool(Member(true, None), "Read"))),
      Attribute("handle_write", Value(ClaudeTool(Member(true, None), "Write", Activity))) ]
  }

  /** Discovery on the mock instance registers exactly "Read" and "Write". */
  method HandlerRegistrationScenario() returns (hasRead: bool, hasWrite: bool, hasBash: bool, read: Option<ToolHandler>, write: Option<ToolHandler>)
    ensures hasRead && hasWrite && !hasBash
    ensures read == Some(ToolHandler("Read", Workflow, "handle_read"))
    ensures write == Some(ToolHandler("Write", Activity, "handle_write"))
  {
    var table := new RegistryTable();
    var attrs := MockWorkflowAttributes();
    var registry := RegisterToolHandlers(table, 0, attrs);
    ScanLastWins(map[], attrs, "Read", 3);
    ScanLastWins(map[], attrs, "Write", 4);
    ScanUntouched(map[], attrs, "Bash");
    hasRead := registry.Has("Read");
    hasWrite := registry.Has("Write");
    hasBash := registry.Has("Bash");
    read := registry.Get("Read");
    write := registry.Get("Write");
  }

  /** The same instance id yields the same registry until it is cleared; afterwards a new, empty one. */
  method RegistryTableScenario() returns (same: bool, emptyAfterClear: bool)
    ensures same && emptyAfterClear
  {
    var table := new RegistryTable();
    var r1 := table.GetToolRegistry(7);
    r1.Register("Read", "handle_read", Workflow);
    var r2 := table.GetToolRegistry(7);
    same := r1 == r2;
    table.ClearToolRegistry(7);
    var r3 := table.GetToolRegistry(7);
    emptyAfterClear := r3.handlers == map[];
  }

  /** A receiver whose instance has one decorated handler, for tool "Echo". */
  method EchoReceiver() returns (receiver: ClaudeMessageReceiver)
    ensures fresh(receiver) && receiver.Valid()
    ensures receiver.toolResults == map[] && receiver.toolResultEvents == map[]
    ensures receiver.messages == [] && receiver.outgoing == []
    ensures receiver.registry.handlers == map["Echo" := ToolHandler("Echo", Workflow, "handle_echo")]
  {
    var table := new RegistryTable();
    var attrs := [Attribute("handle_echo", Value(ClaudeTool(Member(true, None), "Echo")))];
    receiver := new ClaudeMessageReceiver(table, 0, attrs);
    assert attrs[..0] == [];
  }

  /** The Echo handler returns the request's `"x"` input; reading a missing key raises. */
  function EchoBehaviour(handler: HandlerRef, toolId: string, input: map<string, Json>): Outcome
  {
    if "x" in input && input["x"].JString? then Returns(Some(input["x"].s)) else Raises("'x'")
  }

  /** Two workflow instances share the process-wide table; each keeps its own registry. */
  method SharedTableScenario() returns (first: ClaudeMessageReceiver, second: ClaudeMessageReceiver)
    ensures first.registry != second.registry
    ensures first.registry.handlers == map["Read" := ToolHandler("Read", Workflow, "handle_read")]
    ensures second.registry.handlers == map["Write" := ToolHandler("Write", Activity, "handle_write")]
  {
    var table := new RegistryTable();
    var readAttrs := [Attribute("handle_read", Value(ClaudeTool(Member(true, None), "Read")))];
    var writeAttrs := [Attribute("handle_write", Value(ClaudeTool(Member(true, None), "Write", Activity)))];
    first := new ClaudeMessageReceiver(table, 1, readAttrs);
    assert readAttrs[..0] == [];
    second := new ClaudeMessageReceiver(table, 2, writeAttrs);
    assert writeAttrs[..0] == [];
  }

  /** A resolved result is handed out once; the second fetch finds nothing. */
  method PopOnceScenario() returns (first: ToolResult, second: ToolResult)
    ensures first == ToolResult("t1", true, Some("42"))
    ensures second == NotFound("t1")
  {
    var receiver := EchoReceiver();
    receiver.RequestToolExecution(ToolRequest("t1", "Echo", map["x" := JString("42")]), EchoBehaviour);
    first := receiver.GetToolResult("t1");
    second := receiver.GetToolResult("t1");
  }

  /** When discovery registers a tool twice, dispatch runs the handler registered last. */
  method LastHandlerRunsScenario() returns (r: ToolResult)
    ensures r == ToolResult("t1", true, Some("handle_second"))
  {
    var table := new RegistryTable();
    var attrs := [Attribute("handle_first", Value(ClaudeTool(Member(true, None), "Bash"))),
                  Attribute("handle_second", Value(ClaudeTool(Member(true, None), "Bash")))];
    var receiver := new ClaudeMessageReceiver(table, 0, attrs);
    ScanLastWins(map[], attrs, "Bash", 1);
    receiver.RequestToolExecution(ToolRequest("t1", "Bash", map[]), (handler, toolId, input) => Returns(Some(handler)));
    r := receiver.GetToolResult("t1");
  }

  /** A request for a tool without a handler fails and names the tool. */
  method NoHandlerScenario() returns (missing: ToolResult)
    ensures missing == ToolResult("t1", false, None, Some(NoHandlerPrefix + "Bash"), false)
  {
    var receiver := EchoReceiver();
    receiver.RequestToolExecution(ToolRequest("t1", "Bash", map[]), EchoBehaviour);
    missing := receiver.GetToolResult("t1");
  }

  /** A denial with interrupt fails with the denial's message and asks for the interrupt. */
  method DeniedScenario() returns (denied: ToolResult)
    ensures denied == ToolResult("t2", false, None, Some("blocked"), true)
  {
    var receiver := EchoReceiver();
    receiver.RequestToolExecution(ToolRequest("t2", "Echo", map[]),
                                  (handler, toolId, input) => Denied(ToolDenied("blocked", true)));
    denied := receiver.GetToolResult("t2");
  }

  /** Any other exception fails with its text and no interrupt. */
  method FaultScenario() returns (faulted: ToolResult)
    ensures faulted == ToolResult("t3", false, None, Some("'x'"), false)
  {
    var receiver := EchoReceiver();
    receiver.RequestToolExecution(ToolRequest("t3", "Echo", map[]), EchoBehaviour);
    faulted := receiver.GetToolResult("t3");
  }

  /** A handler that returns `None` yields a success without output. */
  method NoneReturnScenario() returns (empty: ToolResult)
    ensures empty == ToolResult("t4", true, None, None, false)
  {
    var receiver := EchoReceiver();
    receiver.RequestToolExecution(ToolRequest("t4", "Echo", map[]), (handler, toolId, input) => Returns(None));
    empty := receiver.GetToolResult("t4");
  }

  /** Consuming one id's result leaves another id's result in place. */
  method IndependentIdsScenario() returns (b: ToolResult, a: ToolResult)
    ensures b == ToolResult("b", true, Some("second"))
    ensures a == ToolResult("a", true, Some("first"))
  {
    var receiver := EchoReceiver();
    receiver.RequestToolExecution(ToolRequest("a", "Echo", map["x" := JString("first")]), EchoBehaviour);
    receiver.RequestToolExecution(ToolRequest("b", "Echo", map["x" := JString("second")]), EchoBehaviour);
    b := receiver.GetToolResult("b");
    a := receiver.GetToolResult("a");
  }

  /** Three inbound messages are drained together in arrival order; a timed-out drain then gets nothing. */
  method DrainInOrderScenario(m1: Message, m2: Message, m3: Message) returns (drained: seq<Message>, again: seq<Message>)
    ensures drained == [m1, m2, m3]
    ensures again == []
  {
    var receiver := EchoReceiver();
    receiver.ReceiveClaudeMessage(m1);
    receiver.ReceiveClaudeMessage(m2);
    receiver.ReceiveClaudeMessage(m3);
    drained := receiver.WaitForClaudeMessages(false);
    again := receiver.WaitForClaudeMessages(true);
  }

  /** Outbound messages come back in call order, once. */
  method OutboundScenario(x: string, y: string) returns (sent: seq<string>, again: seq<string>)
    ensures sent == [x, y] && again == []
  {
    var receiver := EchoReceiver();
    receiver.SendToClaude(x);
    receiver.SendToClaude(y);
    sent := receiver.GetAndConsumeMessages();
    again := receiver.GetAndConsumeMessages();
  }
}
