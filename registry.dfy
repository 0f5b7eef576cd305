/**
 * The tool registry: a map from tool name to tool, with registration (last
 * write wins), lookup, copy-out, the list of names, the count, execution by
 * name and closing.
 *
 * A tool is opaque: it offers a name, a description and an input schema, and
 * its Execute is an oracle passed to the operations that run it. The
 * registry's lock is not modelled; every operation runs to completion alone.
 */
module Registry {
  import opened Wrappers
  import opened Text
  import opened McpTypes

  /**
   * A registered tool. `impl` tells apart implementations that describe
   * themselves alike; Execute depends on the whole value.
   */
  datatype ToolImpl = ToolImpl(name: string, description: string, inputSchema: string, impl: nat)

  /** Tool.Execute(ctx, args): a result text or an error. */
  type Executor = (ToolImpl, string) -> Result<string, Failure>

  /** The built-in list_devices tool; the schema is its input struct with the one flag. */
  const ListDevices := ToolImpl(
    "list_devices",
    "Lists all devices in the tailnet, with an option to include route information.",
    "{\"includeRoutes\":false}",
    0)

  /** The tool the registry holds under a name, if any. */
  function Lookup(tools: map<string, ToolImpl>, name: string): Option<ToolImpl> {
    if name in tools then Some(tools[name]) else None
  }

  /** Every entry is filed under its tool's own, non-empty name. */
  ghost predicate WellFiled(tools: map<string, ToolImpl>) {
    forall n :: n in tools ==> n != "" && tools[n].name == n
  }

  /** ExecuteTool, on a snapshot of the map. */
  function ExecuteResult(tools: map<string, ToolImpl>, name: string, args: string, exec: Executor): Result<string, Failure> {
    match Lookup(tools, name)
    case None => Err(Plain("tool " + Quote(name) + " not found"))
    case Some(t) =>
      match exec(t, args)
      case Ok(result) => Ok(result)
      case Err(f) => Err(Wrap("tool " + Quote(name) + " execution failed: ", f))
  }

  /**
   * Registering a tool makes it the one found under its name and changes
   * the lookup of no other name; registering again under the same name
   * replaces the first.
   */
  lemma RegisterThenLookup(tools: map<string, ToolImpl>, t: ToolImpl, u: ToolImpl, other: string)
    requires other != t.name
    ensures Lookup(tools[t.name := t], t.name) == Some(t)
    ensures Lookup(tools[t.name := t], other) == Lookup(tools, other)
    ensures u.name == t.name ==> Lookup(tools[t.name := t][u.name := u], t.name) == Some(u)
    ensures WellFiled(tools) && t.name != "" ==> WellFiled(tools[t.name := t])
  {
  }

  /**
   * Execution by name: an unknown name fails with `tool "<name>" not found`
   * without running anything; a tool's error is wrapped with `tool "<name>"
   * execution failed: ` and keeps its chain; a result is returned unchanged.
   */
  lemma ExecuteOutcomes(tools: map<string, ToolImpl>, name: string, args: string, exec: Executor)
    ensures name !in tools ==> ExecuteResult(tools, name, args, exec) == Err(Failure("tool " + Quote(name) + " not found", None))
    ensures name in tools && exec(tools[name], args).Ok? ==>
            ExecuteResult(tools, name, args, exec) == Ok(exec(tools[name], args).value)
    ensures name in tools && exec(tools[name], args).Err? ==>
            ExecuteResult(tools, name, args, exec).Err? &&
            ExecuteResult(tools, name, args, exec).error.text ==
              "tool " + Quote(name) + " execution failed: " + exec(tools[name], args).error.text &&
            ExecuteResult(tools, name, args, exec).error.mcp == exec(tools[name], args).error.mcp
  {
    if name in tools && exec(tools[name], args).Err? {
      var f := exec(tools[name], args).error;
      assert Wrap("tool " + Quote(name) + " execution failed: ", f).text == "tool " + Quote(name) + " execution failed: " + f.text;
    }
  }

  class ToolRegistry {
    var tools: map<string, ToolImpl>

    ghost predicate Valid()
      reads this
    {
      WellFiled(tools)
    }

    /** NewToolRegistry: the registry starts with the built-in tools, which is list_devices alone. */
    constructor ()
      ensures Valid()
      ensures tools == map["list_devices" := ListDevices]
    {
      tools := map[];
      new;
      var err := Register(Some(ListDevices));
    }

    /**
     * Register: a nil tool or a tool with an empty name is refused and the
     * map is left as it was; otherwise the tool is filed under its name,
     * replacing any tool of that name, and nothing else changes.
     */
    method Register(tool: Option<ToolImpl>) returns (err: Option<string>)
      requires Valid()
      modifies this
      ensures Valid()
      ensures tool.None? ==> err == Some("tool cannot be nil") && tools == old(tools)
      ensures tool.Some? && tool.value.name == "" ==> err == Some("tool name cannot be empty") && tools == old(tools)
      ensures tool.Some? && tool.value.name != "" ==> err.None? && tools == old(tools)[tool.value.name := tool.value]
    {
      if tool.None? {
        return Some("tool cannot be nil");
      }
      var name := tool.value.name;
      if name == "" {
        return Some("tool name cannot be empty");
      }
      tools := tools[name := tool.value];
      err := None;
    }

    /** GetTool: the tool filed under the name, which carries that name; a missing name is not an error. */
    function GetTool(name: string): (r: Option<ToolImpl>)
      requires Valid()
      reads this
      ensures r.Some? <==> name in tools
      ensures r.Some? ==> r.value.name == name && r.value == tools[name]
    {
      Lookup(tools, name)
    }

    /**
     * GetTools: a copy of the map, built entry by entry. Maps are values, so
     * nothing done to the copy can reach the registry.
     */
    method GetTools() returns (copy: map<string, ToolImpl>)
      ensures copy == tools
    {
      copy := map[];
      var rest := tools.Keys;
      while rest != {}
        invariant rest <= tools.Keys
        invariant copy.Keys == tools.Keys - rest
        invariant forall n :: n in copy ==> copy[n] == tools[n]
        decreases |rest|
      {
        var n :| n in rest;
        copy := copy[n := tools[n]];
        rest := rest - {n};
      }
    }

    /**
     * ListToolNames: every registered name exactly once, in no particular
     * order (the map's iteration order; the names are not sorted).
     */
    method ListToolNames() returns (names: seq<string>)
      ensures |names| == Count()
      ensures forall n :: n in names <==> n in tools
      ensures forall i, j :: 0 <= i < j < |names| ==> names[i] != names[j]
    {
      names := [];
      var rest := tools.Keys;
      while rest != {}
        invariant rest <= tools.Keys
        invariant forall n :: n in names <==> n in tools.Keys - rest
        invariant forall i, j :: 0 <= i < j < |names| ==> names[i] != names[j]
        invariant |names| + |rest| == |tools.Keys|
        decreases |rest|
      {
        var n :| n in rest;
        ghost var before := names;
        names := names + [n];
        rest := rest - {n};
        forall m ensures m in names <==> m in tools.Keys - rest {
          assert m in names <==> m in before || m == n;
        }
        forall i, j | 0 <= i < j < |names| ensures names[i] != names[j] {
          if j == |before| {
            assert names[i] == before[i] && before[i] in before && n !in before;
          }
        }
      }
    }

    /** Count: the number of distinct registered names. */
    function Count(): (r: nat)
      reads this
      ensures r == |tools.Keys|
    {
      |tools|
    }

    /** ExecuteTool: the outcome ExecuteResult gives on the current map. */
    method ExecuteTool(name: string, args: string, exec: Executor) returns (r: Result<string, Failure>)
      ensures r == ExecuteResult(tools, name, args, exec)
    {
      var tool := Lookup(tools, name);
      if tool.None? {
        return Err(Plain("tool " + Quote(name) + " not found"));
      }
      var result := exec(tool.value, args);
      if result.Err? {
        return Err(Wrap("tool " + Quote(name) + " execution failed: ", result.error));
      }
      r := Ok(result.value);
    }

    /** Close: the map is replaced by an empty one, so the count drops to zero. */
    method Close() returns (err: Option<string>)
      requires Valid()
      modifies this
      ensures Valid()
      ensures tools == map[] && Count() == 0 && err.None?
    {
      tools := map[];
      err := None;
    }
  }
}
