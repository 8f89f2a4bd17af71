/**
 * The tool handler registry of the Claude agent integration and the
 * discovery of handlers on a workflow instance.
 *
 * A handler is known by a `HandlerRef`, the name under which the workflow
 * instance exposes it (for a discovered method: its attribute name).  What a
 * handler does when it is invoked is not part of this module; the
 * coordinator in `WorkflowHelpers` receives it as a `Behaviour`, which maps
 * the handler, the tool id and the input to an outcome.
 */
module ToolDecorator {
  import opened Wrappers

  /** `ToolDenied`: the exception a handler raises to refuse a tool call. */
  datatype ToolDenied = ToolDenied(message: string, interrupt: bool := false)

  /** Where a tool runs: `"claude"`, `"activity"` or `"workflow"`. */
  datatype Execution = Claude | Activity | Workflow

  type HandlerRef = string

  /** Metadata for one registered tool handler. */
  datatype ToolHandler = ToolHandler(toolName: string, execution: Execution, handler: HandlerRef)

  /** Every entry of a name -> handler map is stored under its own tool name. */
  ghost predicate KeyedByName(handlers: map<string, ToolHandler>)
  {
    forall name :: name in handlers ==> handlers[name].toolName == name
  }

  /** A name -> handler map; a second registration of a name replaces the first. */
  class ToolRegistry {
    var handlers: map<string, ToolHandler>

    ghost predicate Valid()
      reads this
    {
      KeyedByName(handlers)
    }

    constructor ()
      ensures Valid() && handlers == map[]
    {
      handlers := map[];
    }

    /** `register`: inserts or replaces the entry for `toolName`. */
    method Register(toolName: string, handler: HandlerRef, execution: Execution)
      requires Valid()
      modifies this
      ensures Valid()
      ensures handlers == old(handlers)[toolName := ToolHandler(toolName, execution, handler)]
      ensures Has(toolName) && Get(toolName) == Some(ToolHandler(toolName, execution, handler))
      ensures forall name :: name != toolName ==> Get(name) == old(Get(name))
    {
      handlers := handlers[toolName := ToolHandler(toolName, execution, handler)];
    }

    /** `get`: the entry registered for `toolName`, or None. */
    function Get(toolName: string): (r: Option<ToolHandler>)
      reads this
      ensures r.Some? <==> toolName in handlers
      ensures r.Some? && Valid() ==> r.value.toolName == toolName
    {
      if toolName in handlers then Some(handlers[toolName]) else None
    }

    /** `has`: whether a handler is registered for `toolName`. */
    function Has(toolName: string): (b: bool)
      reads this
      ensures b <==> Get(toolName).Some?
    {
      toolName in handlers
    }
  }

  /**
   * The process-wide table from workflow instance identity (Python's `id()`)
   * to that instance's registry.
   */
  class RegistryTable {
    var registries: map<int, ToolRegistry>

    ghost predicate Valid()
      reads this, registries.Values
    {
      forall id :: id in registries ==> registries[id].Valid()
    }

    constructor ()
      ensures Valid() && registries == map[]
    {
      registries := map[];
    }

    /** `get_tool_registry`: the registry of `instanceId`, created empty if absent. */
    method GetToolRegistry(instanceId: int) returns (registry: ToolRegistry)
      requires Valid()
      modifies this
      ensures Valid()
      ensures instanceId in registries && registry == registries[instanceId]
      ensures old(instanceId in registries) ==> registries == old(registries)
      ensures old(instanceId !in registries) ==>
                fresh(registry) && registry.handlers == map[] &&
                registries == old(registries)[instanceId := registry]
    {
      if instanceId !in registries {
        var created := new ToolRegistry();
        registries := registries[instanceId := created];
      }
      registry := registries[instanceId];
    }

    /** `clear_tool_registry`: forgets the registry of `instanceId`, if any. */
    method ClearToolRegistry(instanceId: int)
      requires Valid()
      modifies this
      ensures Valid()
      ensures registries == old(registries) - {instanceId}
    {
      if instanceId in registries {
        registries := registries - {instanceId};
      }
    }
  }

  /** The metadata `claude_tool` attaches to a function. */
  datatype ToolTag = ToolTag(name: string, execution: Execution)

  /** The part of an attribute value that discovery inspects. */
  datatype Member = Member(isCallable: bool, tag: Option<ToolTag>)

  /** Reading an attribute either raises or yields a value. */
  datatype Access = Faulting | Value(member: Member)

  /** One entry of `dir(workflow_instance)`, in the order discovery visits it. */
  datatype Attribute = Attribute(name: string, access: Access)

  /** `claude_tool(toolName, execution)(func)`: the same function, tagged. */
  function ClaudeTool(func: Member, toolName: string, execution: Execution := Workflow): (tagged: Member)
    ensures tagged.tag == Some(ToolTag(toolName, execution))
    ensures tagged.isCallable == func.isCallable
  {
    func.(tag := Some(ToolTag(toolName, execution)))
  }

  /** Decorating without an execution mode yields mode `"workflow"`. */
  lemma ClaudeToolDefaultsToWorkflow(func: Member, toolName: string)
    ensures ClaudeTool(func, toolName) == ClaudeTool(func, toolName, Workflow)
    ensures ClaudeTool(func, toolName).tag.value.execution == Workflow
  {
  }

  /** Decorating twice keeps only the outer (last applied) tag. */
  lemma ClaudeToolOuterWins(func: Member, inner: string, innerMode: Execution, outer: string, outerMode: Execution)
    ensures ClaudeTool(ClaudeTool(func, inner, innerMode), outer, outerMode) == ClaudeTool(func, outer, outerMode)
  {
  }

  /** Discovery registers an attribute when reading it succeeds and yields a tagged callable. */
  predicate Discoverable(a: Attribute)
  {
    a.access.Value? && a.access.member.isCallable && a.access.member.tag.Some?
  }

  predicate RegistersAs(a: Attribute, name: string)
  {
    Discoverable(a) && a.access.member.tag.value.name == name
  }

  /** The entry discovery registers for a discoverable attribute. */
  function EntryOf(a: Attribute): ToolHandler
    requires Discoverable(a)
  {
    var tag := a.access.member.tag.value;
    ToolHandler(tag.name, tag.execution, a.name)
  }

  /** The effect of visiting one attribute on the handler map. */
  function ScanStep(handlers: map<string, ToolHandler>, a: Attribute): map<string, ToolHandler>
  {
    if Discoverable(a) then handlers[EntryOf(a).toolName := EntryOf(a)] else handlers
  }

  /** The handler map after visiting `attrs` in order, starting from `handlers`. */
  function ScanAll(handlers: map<string, ToolHandler>, attrs: seq<Attribute>): map<string, ToolHandler>
    decreases |attrs|
  {
    if attrs == [] then handlers
    else ScanStep(ScanAll(handlers, attrs[..|attrs| - 1]), attrs[|attrs| - 1])
  }

  /** A name is registered after the scan exactly when it was before or some attribute registers it. */
  lemma {:induction false} ScanDomain(handlers: map<string, ToolHandler>, attrs: seq<Attribute>, name: string)
    ensures name in ScanAll(handlers, attrs) <==>
              name in handlers || exists i :: 0 <= i < |attrs| && RegistersAs(attrs[i], name)
  {
    if attrs != [] {
      var n := |attrs| - 1;
      var prefix := attrs[..n];
      ScanDomain(handlers, prefix, name);
      if exists i :: 0 <= i < |prefix| && RegistersAs(prefix[i], name) {
        var i :| 0 <= i < |prefix| && RegistersAs(prefix[i], name);
        assert RegistersAs(attrs[i], name);
      }
      if exists i :: 0 <= i < |attrs| && RegistersAs(attrs[i], name) {
        var i :| 0 <= i < |attrs| && RegistersAs(attrs[i], name);
        if i < n {
          assert RegistersAs(prefix[i], name);
        }
      }
    }
  }

  /** The last attribute that registers a name decides its entry (last writer wins). */
  lemma {:induction false} ScanLastWins(handlers: map<string, ToolHandler>, attrs: seq<Attribute>, name: string, i: int)
    requires 0 <= i < |attrs| && RegistersAs(attrs[i], name)
    requires forall j :: i < j < |attrs| ==> !RegistersAs(attrs[j], name)
    ensures name in ScanAll(handlers, attrs) && ScanAll(handlers, attrs)[name] == EntryOf(attrs[i])
  {
    var n := |attrs| - 1;
    if i < n {
      var prefix := attrs[..n];
      assert forall j :: i < j < |prefix| ==> prefix[j] == attrs[j];
      ScanLastWins(handlers, prefix, name, i);
      assert !RegistersAs(attrs[n], name);
    }
  }

  /** A name no attribute registers keeps its entry, or stays absent. */
  lemma {:induction false} ScanUntouched(handlers: map<string, ToolHandler>, attrs: seq<Attribute>, name: string)
    requires forall i :: 0 <= i < |attrs| ==> !RegistersAs(attrs[i], name)
    ensures name in ScanAll(handlers, attrs) <==> name in handlers
    ensures name in handlers ==> ScanAll(handlers, attrs)[name] == handlers[name]
  {
    if attrs != [] {
      var n := |attrs| - 1;
      var prefix := attrs[..n];
      assert forall i :: 0 <= i < |prefix| ==> prefix[i] == attrs[i];
      ScanUntouched(handlers, prefix, name);
      assert !RegistersAs(attrs[n], name);
    }
  }

  /** The scan stores every entry under its own tool name. */
  lemma {:induction false} ScanKeyedByName(handlers: map<string, ToolHandler>, attrs: seq<Attribute>)
    requires KeyedByName(handlers)
    ensures KeyedByName(ScanAll(handlers, attrs))
  {
    if attrs != [] {
      ScanKeyedByName(handlers, attrs[..|attrs| - 1]);
    }
  }

  /**
   * `register_tool_handlers`: fetches (or creates) the registry of
   * `instanceId` and registers every discoverable attribute of `attrs`, in
   * order; attributes that raise on access are skipped.
   */
  method RegisterToolHandlers(table: RegistryTable, instanceId: int, attrs: seq<Attribute>)
    returns (registry: ToolRegistry)
    requires table.Valid()
    modifies table, table.registries.Values
    ensures table.Valid()
    ensures instanceId in table.registries && registry == table.registries[instanceId]
    ensures old(instanceId in table.registries) ==>
              table.registries == old(table.registries) &&
              registry.handlers == ScanAll(old(table.registries[instanceId].handlers), attrs)
    ensures old(instanceId !in table.registries) ==>
              fresh(registry) && table.registries == old(table.registries)[instanceId := registry] &&
              registry.handlers == ScanAll(map[], attrs)
    ensures forall r :: r in old(table.registries.Values) && r != registry ==> r.handlers == old(r.handlers)
  {
    registry := table.GetToolRegistry(instanceId);
    ghost var start := registry.handlers;
    ghost var registries := table.registries;
    var i := 0;
    while i < |attrs|
      invariant 0 <= i <= |attrs|
      invariant table.registries == registries && registry == registries[instanceId]
      invariant registry.Valid() && table.Valid()
      invariant registry.handlers == ScanAll(start, attrs[..i])
      invariant forall r :: r in old(table.registries.Values) && r != registry ==> r.handlers == old(r.handlers)
    {
      var a := attrs[i];
      assert attrs[..i + 1][..i] == attrs[..i];
      match a.access {
        case Faulting =>
          // reading the attribute raised: skip it
        case Value(member) =>
          if member.isCallable && member.tag.Some? {
            registry.Register(member.tag.value.name, a.name, member.tag.value.execution);
          }
      }
      i := i + 1;
    }
    assert attrs[..i] == attrs;
  }
}
