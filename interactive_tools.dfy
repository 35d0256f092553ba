/**
 * The registry of tools the interactive conversation can enable
 * (`_InteractiveTools`): a dictionary of available tools by name and the list
 * of enabled tool names.
 */
module InteractiveToolRegistry {
  import opened Wrappers
  import opened Dicts
  import opened Schema

  /** The five built-in tools; what they do (web search, HTTP, shell) is not part of this model. */
  datatype BuiltinTools = BuiltinTools(
    queryInternet: Tool,
    openWebPage: Tool,
    runShellCommand: Tool,
    getCurrentLocation: Tool,
    getCurrentWeather: Tool)

  /** The names the built-in tools are available under, in insertion order. */
  const BuiltinNames: seq<string> :=
    ["query_internet", "open_web_page", "run_shell_command", "get_current_location", "get_current_weather"]

  /** The dictionary `__init__` starts from. */
  function InitialTools(b: BuiltinTools): (d: Dict<string, Tool>)
    ensures Keys(d) == BuiltinNames
    ensures Dicts.Values(d) == [b.queryInternet, b.openWebPage, b.runShellCommand, b.getCurrentLocation, b.getCurrentWeather]
    ensures DistinctKeys(d)
  {
    [("query_internet", b.queryInternet),
     ("open_web_page", b.openWebPage),
     ("run_shell_command", b.runShellCommand),
     ("get_current_location", b.getCurrentLocation),
     ("get_current_weather", b.getCurrentWeather)]
  }

  /** The enabled names after enabling `name`: appended only when it is not there yet. */
  function Enable(enabled: seq<string>, name: string): (r: seq<string>)
  {
    if name in enabled then enabled else enabled + [name]
  }

  /** What `register(*tools)` leaves: each tool stored under its `__name__`, its name enabled. */
  function Registered(available: Dict<string, Tool>, enabled: seq<string>, tools: seq<Tool>): (r: (Dict<string, Tool>, seq<string>))
    decreases |tools|
  {
    if tools == [] then (available, enabled)
    else
      var before := Registered(available, enabled, tools[..|tools| - 1]);
      var t := tools[|tools| - 1];
      (Put(before.0, ToolName(t), t), Enable(before.1, ToolName(t)))
  }

  /**
   * Registration keeps the enabled names that were there, in their order, adds
   * exactly the registered names that were missing, and never duplicates a name.
   */
  lemma {:induction false} RegisteredEnables(available: Dict<string, Tool>, enabled: seq<string>, tools: seq<Tool>)
    ensures var names := Registered(available, enabled, tools).1;
      && enabled <= names
      && (forall i :: 0 <= i < |tools| ==> ToolName(tools[i]) in names)
      && (forall n :: n in names ==> n in enabled || exists i :: 0 <= i < |tools| && ToolName(tools[i]) == n)
      && (Distinct(enabled) ==> Distinct(names))
    decreases |tools|
  {
    if tools != [] {
      var init := tools[..|tools| - 1];
      RegisteredEnables(available, enabled, init);
      var before := Registered(available, enabled, init).1;
      var t := tools[|tools| - 1];
      var names := Enable(before, ToolName(t));
      forall i | 0 <= i < |tools| ensures ToolName(tools[i]) in names {
        if i < |tools| - 1 {
          assert tools[i] == init[i];
        }
      }
      forall n | n in names ensures n in enabled || exists i :: 0 <= i < |tools| && ToolName(tools[i]) == n {
        if n in before && n !in enabled {
          var i :| 0 <= i < |init| && ToolName(init[i]) == n;
          assert tools[i] == init[i];
        } else if n !in before {
          assert ToolName(tools[|tools| - 1]) == n;
        }
      }
      if Distinct(enabled) && ToolName(t) !in before {
        DistinctAppend(before, ToolName(t));
      }
    }
  }

  /**
   * Every registered name ends up holding the last tool registered under it;
   * every other name keeps what it held.
   */
  lemma {:induction false} RegisteredStores(available: Dict<string, Tool>, enabled: seq<string>, tools: seq<Tool>)
    ensures var d := Registered(available, enabled, tools).0;
      && (forall i :: 0 <= i < |tools| && (forall j :: i < j < |tools| ==> ToolName(tools[j]) != ToolName(tools[i]))
            ==> Get(d, ToolName(tools[i])) == Some(tools[i]))
      && (forall n :: (forall i :: 0 <= i < |tools| ==> ToolName(tools[i]) != n) ==> Get(d, n) == Get(available, n))
    decreases |tools|
  {
    if tools != [] {
      var init := tools[..|tools| - 1];
      RegisteredStores(available, enabled, init);
      forall i | 0 <= i < |tools| - 1 && (forall j :: i < j < |tools| ==> ToolName(tools[j]) != ToolName(tools[i]))
        ensures Get(Registered(available, enabled, tools).0, ToolName(tools[i])) == Some(tools[i])
      {
        assert tools[i] == init[i];
        assert ToolName(tools[|tools| - 1]) != ToolName(tools[i]);
        assert forall j :: i < j < |init| ==> init[j] == tools[j];
      }
      forall n | forall i :: 0 <= i < |tools| ==> ToolName(tools[i]) != n
        ensures Get(Registered(available, enabled, tools).0, n) == Get(available, n)
      {
        assert forall i :: 0 <= i < |init| ==> init[i] == tools[i];
        assert ToolName(tools[|tools| - 1]) != n;
      }
    }
  }

  /** Registering the same tool a second time changes nothing. */
  lemma RegisterTwice(available: Dict<string, Tool>, enabled: seq<string>, t: Tool)
    ensures var once := Registered(available, enabled, [t]);
      Registered(once.0, once.1, [t]) == once
  {
    var once := Registered(available, enabled, [t]);
    assert [t][..0] == [];
    PutIdempotent(available, ToolName(t), t);
  }

  /** `_InteractiveTools` */
  class InteractiveTools {
    var enabledToolNames: seq<string>
    var availableTools: Dict<string, Tool>

    /** `__init__`: a copy of the given names (a Dafny sequence is a value) and the built-in tools. */
    constructor(enabled: seq<string>, builtins: BuiltinTools)
      ensures enabledToolNames == enabled && availableTools == InitialTools(builtins)
    {
      enabledToolNames := enabled;
      availableTools := InitialTools(builtins);
    }

    /** `register(*tools)` */
    method Register(tools: seq<Tool>)
      modifies this
      ensures (availableTools, enabledToolNames) == Registered(old(availableTools), old(enabledToolNames), tools)
    {
      for i := 0 to |tools|
        invariant (availableTools, enabledToolNames) == Registered(old(availableTools), old(enabledToolNames), tools[..i])
      {
        var tool := tools[i];
        var toolName := ToolName(tool);
        availableTools := Put(availableTools, toolName, tool);
        if toolName !in enabledToolNames {
          enabledToolNames := enabledToolNames + [toolName];
        }
        assert tools[..i + 1][..i] == tools[..i];
      }
      assert tools[..|tools|] == tools;
    }

    /** `get_available_tools` */
    function GetAvailableTools(): (r: Dict<string, Tool>)
      reads this
      ensures r == availableTools
    {
      availableTools
    }

    /** `get_enabled_tool_names` */
    function GetEnabledToolNames(): (r: seq<string>)
      reads this
      ensures r == enabledToolNames
    {
      enabledToolNames
    }
  }
}
