/**
 * Assembling the tool list (`useTools.loadTools`): the built-in descriptors followed by the
 * custom tools, then the user's name and path overrides, then the hidden filter, then the
 * installed flag from the existence probe of the main process, which is an oracle here.
 */
module ToolLoading {
  import opened Wrappers
  import opened Records
  import opened Types
  import opened Lists
  import opened PathResolver
  import opened ToolRegistry
  import opened Store

  /** `override.name || tool.name` and `override.configPath || tool.configPath` for a present override. */
  function ApplyOverride(t: Tool, overrides: Record<ToolOverride>): (r: Tool)
    ensures Get(overrides, t.id).None? ==> r == t
    ensures Get(overrides, t.id).Some? ==> var o := Get(overrides, t.id).value;
      r == t.(name := if o.name.Some? && o.name.value != "" then o.name.value else t.name,
              configPath := if o.configPath.Some? && o.configPath.value != "" then o.configPath.value else t.configPath)
  {
    match Get(overrides, t.id)
    case None => t
    case Some(o) =>
      t.(name := if o.name.Some? && o.name.value != "" then o.name.value else t.name,
         configPath := if o.configPath.Some? && o.configPath.value != "" then o.configPath.value else t.configPath)
  }

  /** `allTools.map(tool => ...)` with the overrides. */
  function Overridden(tools: seq<Tool>, overrides: Record<ToolOverride>): (r: seq<Tool>)
    ensures |r| == |tools|
    ensures forall i :: 0 <= i < |tools| ==> r[i] == ApplyOverride(tools[i], overrides)
  {
    seq(|tools|, i requires 0 <= i < |tools| => ApplyOverride(tools[i], overrides))
  }

  /** An override changes at most the name and the path: the id and every other field stay. */
  lemma OverrideKeeps(t: Tool, overrides: Record<ToolOverride>)
    ensures ApplyOverride(t, overrides).(name := t.name, configPath := t.configPath) == t
  {
  }

  /** An override whose values are empty or absent changes nothing. */
  lemma EmptyOverride(t: Tool, overrides: Record<ToolOverride>)
    requires Get(overrides, t.id).Some?
    requires var o := Get(overrides, t.id).value;
      (o.name.None? || o.name.value == "") && (o.configPath.None? || o.configPath.value == "")
    ensures ApplyOverride(t, overrides) == t
  {
  }

  /** `allTools.filter(tool => !hiddenTools.includes(tool.id))`. */
  function Visible(tools: seq<Tool>, hidden: seq<string>): (r: seq<Tool>)
    ensures forall t :: t in r <==> t in tools && t.id !in hidden
  {
    Filter(tools, (t: Tool) => t.id !in hidden)
  }

  /** The list before the installed flag is set. */
  function Assemble(builtIn: seq<Tool>, custom: seq<Tool>, p: Preferences): seq<Tool>
  {
    Visible(Overridden(builtIn + custom, p.toolOverrides.GetOr([])), p.hiddenTools.GetOr([]))
  }

  /**
   * Hiding removes exactly the hidden ids and keeps the order: the assembled list of built-ins
   * followed by custom tools is the assembly of each part, one after the other.
   */
  lemma AssembleOrder(builtIn: seq<Tool>, custom: seq<Tool>, p: Preferences)
    ensures Assemble(builtIn, custom, p) == Assemble(builtIn, [], p) + Assemble([], custom, p)
  {
    var o := p.toolOverrides.GetOr([]);
    assert Overridden(builtIn + custom, o) == Overridden(builtIn, o) + Overridden(custom, o);
    assert builtIn + [] == builtIn && [] + custom == custom;
    FilterConcat(Overridden(builtIn, o), Overridden(custom, o), (t: Tool) => t.id !in p.hiddenTools.GetOr([]));
  }

  /** A tool the user has neither overridden nor hidden appears unchanged. */
  lemma AssemblePlain(builtIn: seq<Tool>, custom: seq<Tool>, p: Preferences, t: Tool)
    requires t in builtIn + custom
    requires Get(p.toolOverrides.GetOr([]), t.id).None? && t.id !in p.hiddenTools.GetOr([])
    ensures t in Assemble(builtIn, custom, p)
  {
    var all := builtIn + custom;
    var i :| 0 <= i < |all| && all[i] == t;
    assert Overridden(all, p.toolOverrides.GetOr([]))[i] == t;
  }

  /** A hidden tool never appears, whatever its override. */
  lemma AssembleHidden(builtIn: seq<Tool>, custom: seq<Tool>, p: Preferences, t: Tool)
    requires t.id in p.hiddenTools.GetOr([])
    ensures t !in Assemble(builtIn, custom, p)
  {
  }

  /**
   * `installed[tool.configPath] || false`. The empty path is never probed (`filter(Boolean)`),
   * so the answer has no entry for it and a tool without a path is never installed.
   */
  function IsInstalledIn(installed: map<string, bool>, path: string): bool
  {
    path != "" && path in installed && installed[path]
  }

  /** Whatever the probe answers, a tool whose path is empty is not marked installed. */
  lemma EmptyPathNotInstalled(installed: map<string, bool>)
    ensures !IsInstalledIn(installed, "")
  {
  }

  /** The result of asking the main process which paths exist. */
  datatype Probe =
    | NoBridge               // `window.electron` is absent: the flags are not set
    | Failed(message: string) // the call threw
    | Found(installed: map<string, bool>)

  /** `for (const tool of allTools) tool.isInstalled = installed[tool.configPath] || false`. */
  method MarkInstalled(allTools: seq<Tool>, installed: map<string, bool>) returns (tools: seq<Tool>)
    ensures |tools| == |allTools|
    ensures forall i :: 0 <= i < |tools| ==>
      tools[i] == allTools[i].(isInstalled := Some(IsInstalledIn(installed, allTools[i].configPath)))
  {
    tools := allTools;
    var i := 0;
    while i < |tools|
      invariant 0 <= i <= |tools| == |allTools|
      invariant forall j :: 0 <= j < i ==>
        tools[j] == allTools[j].(isInstalled := Some(IsInstalledIn(installed, allTools[j].configPath)))
      invariant forall j :: i <= j < |tools| ==> tools[j] == allTools[j]
    {
      var tool := tools[i];
      tools := tools[i := tool.(isInstalled := Some(IsInstalledIn(installed, tool.configPath)))];
      i := i + 1;
    }
  }

  /**
   * `loadTools`: clear the error, assemble the list and, when the probe answers, mark the
   * installed tools; a failure sets the error and leaves the tool list as it was.
   */
  method LoadTools(store: AppStore, defs: seq<ToolDefinition>, platform: Platform, home: string, probe: Probe)
    modifies store
    ensures probe.Failed? ==> store.tools == old(store.tools) && store.error == Some("Failed to load tools: " + probe.message)
    ensures probe.NoBridge? ==>
      store.tools == Assemble(BuiltInTools(defs, platform, home), old(store.preferences).customTools, old(store.preferences))
      && store.error == None
    ensures probe.Found? ==>
      var all := Assemble(BuiltInTools(defs, platform, home), old(store.preferences).customTools, old(store.preferences));
      |store.tools| == |all| && store.error == None
      && forall i :: 0 <= i < |all| ==>
        store.tools[i] == all[i].(isInstalled := Some(IsInstalledIn(probe.installed, all[i].configPath)))
    ensures store.servers == old(store.servers) && store.preferences == old(store.preferences)
    ensures store.logs == old(store.logs) && store.logIdCounter == old(store.logIdCounter)
  {
    store.SetError(None);
    var builtIn := BuiltInTools(defs, platform, home);
    var customTools := store.preferences.customTools;
    var allTools := builtIn + customTools;
    var overrides := store.preferences.toolOverrides.GetOr([]);
    allTools := Overridden(allTools, overrides);
    var hiddenTools := store.preferences.hiddenTools.GetOr([]);
    allTools := Visible(allTools, hiddenTools);
    if probe.Failed? {
      store.SetError(Some("Failed to load tools: " + probe.message));
      return;
    }
    if probe.Found? {
      allTools := MarkInstalled(allTools, probe.installed);
    }
    store.SetTools(allTools);
  }
}
