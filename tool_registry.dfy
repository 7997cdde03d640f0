/**
 * The tool registry (`toolRegistry`): built-in tool descriptors from their definitions, custom
 * tool descriptors, the server key of a config format, format detection from a document's
 * top-level keys, and the icon lookup.  The definitions file is a parameter.
 */
module ToolRegistry {
  import opened Wrappers
  import opened Records
  import opened Types
  import opened PathResolver
  import ServerSchema
  import Json

  const NO_CAPABILITIES := Capabilities(None, None, None)

  /** The descriptor `getBuiltInTools` builds from a definition and its resolved path. */
  function BuiltInTool(def: ToolDefinition, configPath: string): (t: Tool)
    ensures t.isBuiltIn && t.configPath == configPath && t.id == def.id && t.name == def.name
    ensures t.serverKey == Some(def.serverKey) && t.configFormat == def.configFormat && t.caps == def.caps
  {
    Tool(def.id, def.name, def.icon, configPath, def.configFormat, Some(def.serverKey), def.caps, true, None, None)
  }

  /** `getConfigPathForPlatform(def.platforms) || ''`. */
  function PathOf(def: ToolDefinition, platform: Platform, home: string): string
  {
    ConfigPathFor(platform, home, def.platforms).GetOr("")
  }

  /** `getBuiltInTools`: one descriptor per definition whose path resolves to a non-empty string. */
  function BuiltInTools(defs: seq<ToolDefinition>, platform: Platform, home: string): (tools: seq<Tool>)
    ensures |tools| <= |defs|
    ensures forall t :: t in tools ==> t.isBuiltIn && t.configPath != ""
    ensures forall t :: t in tools ==> exists d :: d in defs && t == BuiltInTool(d, PathOf(d, platform, home))
  {
    if defs == [] then []
    else
      var p := PathOf(defs[0], platform, home);
      var rest := BuiltInTools(defs[1..], platform, home);
      assert forall d :: d in defs[1..] ==> d in defs;
      (if p == "" then [] else [BuiltInTool(defs[0], p)]) + rest
  }

  /**
   * The built-in list follows the definitions: one definition gives its descriptor exactly when
   * its path resolves non-empty, and a list of definitions gives the descriptors of its parts in order.
   */
  lemma {:induction false} BuiltInToolsConcat(a: seq<ToolDefinition>, b: seq<ToolDefinition>, platform: Platform, home: string)
    ensures BuiltInTools(a + b, platform, home) == BuiltInTools(a, platform, home) + BuiltInTools(b, platform, home)
  {
    if a == [] {
      assert a + b == b;
    } else {
      assert (a + b)[0] == a[0] && (a + b)[1..] == a[1..] + b;
      BuiltInToolsConcat(a[1..], b, platform, home);
    }
  }

  lemma BuiltInToolsOne(d: ToolDefinition, platform: Platform, home: string)
    ensures BuiltInTools([d], platform, home)
      == if PathOf(d, platform, home) == "" then [] else [BuiltInTool(d, PathOf(d, platform, home))]
  {
  }

  /** A definition without a template for the platform, or with an empty one, gives no tool. */
  lemma BuiltInToolsSkipMissing(d: ToolDefinition, platform: Platform, home: string)
    requires d.platforms.For(platform) in {None, Some("")}
    ensures BuiltInTools([d], platform, home) == []
  {
  }

  /**
   * `createCustomTool`, as written: `serverKey || configFormat === 'mcp.servers' ? ... : ...`
   * parses as `(serverKey || configFormat === 'mcp.servers') ? 'mcp.servers' : 'mcpServers'`.
   */
  function CreateCustomTool(id: string, name: string, configPath: string, configFormat: ConfigFormat,
                            serverKey: Option<string>, now: string): (t: Tool)
    ensures !t.isBuiltIn && t.addedAt == Some(now) && IsCustomTool(t)
    ensures t.id == id && t.name == name && t.configPath == configPath && t.configFormat == configFormat
    ensures t.serverKey == Some(if (serverKey.Some? && serverKey.value != "") || configFormat == McpDotServersFormat
      then "mcp.servers" else "mcpServers")
  {
    var key := if (serverKey.Some? && serverKey.value != "") || configFormat == McpDotServersFormat
      then "mcp.servers" else "mcpServers";
    Tool(id, name, None, configPath, configFormat, Some(key), NO_CAPABILITIES, false, None, Some(now))
  }

  /** A given server key is not kept: `servers` with the `servers` format becomes `mcp.servers`. */
  lemma CreateCustomToolDropsKey(id: string, name: string, configPath: string, now: string)
    ensures CreateCustomTool(id, name, configPath, ServersFormat, Some("servers"), now).serverKey == Some("mcp.servers")
  {
  }

  /** `createCustomTool` as evidently intended: `serverKey || (configFormat === 'mcp.servers' ? ... : ...)`. */
  function CreateCustomToolIntended(id: string, name: string, configPath: string, configFormat: ConfigFormat,
                                    serverKey: Option<string>, now: string): (t: Tool)
    ensures !t.isBuiltIn && t.addedAt == Some(now) && IsCustomTool(t)
    ensures t.id == id && t.name == name && t.configPath == configPath && t.configFormat == configFormat
  {
    var key := if serverKey.Some? && serverKey.value != "" then serverKey.value
      else if configFormat == McpDotServersFormat then "mcp.servers" else "mcpServers";
    Tool(id, name, None, configPath, configFormat, Some(key), NO_CAPABILITIES, false, None, Some(now))
  }

  /** The intended version keeps a given key, and otherwise falls back as the quirky one does. */
  lemma CreateCustomToolIntendedKey(id: string, name: string, configPath: string, configFormat: ConfigFormat,
                                    serverKey: Option<string>, now: string)
    ensures serverKey.Some? && serverKey.value != "" ==>
      CreateCustomToolIntended(id, name, configPath, configFormat, serverKey, now).serverKey == serverKey
    ensures serverKey.None? || serverKey.value == "" ==>
      CreateCustomToolIntended(id, name, configPath, configFormat, serverKey, now)
        == CreateCustomTool(id, name, configPath, configFormat, serverKey, now)
  {
  }

  /** `getServerKeyForFormat`: each format's own name. */
  function GetServerKeyForFormat(format: ConfigFormat): (key: string)
    ensures ServerSchema.ParseConfigFormat(key) == Some(format)
  {
    match format
    case McpServersFormat => "mcpServers"
    case ServersFormat => "servers"
    case McpDotServersFormat => "mcp.servers"
  }

  /** `detectConfigFormat`: the first of the known top-level keys the document has. */
  function DetectConfigFormat(config: Record<Json.Json>): (f: Option<ConfigFormat>)
    ensures f == Some(McpServersFormat) <==> "mcpServers" in Keys(config)
    ensures f == Some(ServersFormat) <==> "mcpServers" !in Keys(config) && "servers" in Keys(config)
    ensures f == Some(McpDotServersFormat) <==>
      "mcpServers" !in Keys(config) && "servers" !in Keys(config) && ("mcp.servers" in Keys(config) || "mcp" in Keys(config))
  {
    var ks := Keys(config);
    if "mcpServers" in ks then Some(McpServersFormat)
    else if "servers" in ks then Some(ServersFormat)
    else if "mcp.servers" in ks || "mcp" in ks then Some(McpDotServersFormat)
    else None
  }

  /** A document holding only one format's top-level key is detected as that format. */
  lemma DetectOwnKey(f: ConfigFormat, v: Json.Json)
    ensures var top := if f == McpDotServersFormat then "mcp" else f.Name();
      DetectConfigFormat([(top, v)]) == Some(f)
  {
    var top := if f == McpDotServersFormat then "mcp" else f.Name();
    assert Keys([(top, v)]) == [top];
  }

  /** The icon names `getToolIcon` knows, with the component each maps to. */
  const ICONS: Record<string> := [("claude", "MessageSquare"), ("terminal", "Terminal"), ("bot", "Bot"),
    ("code", "Code"), ("mouse-pointer", "MousePointer")]

  /** `getToolIcon`: the mapped component, or `Server` for an unknown or absent name. */
  function GetToolIcon(iconName: Option<string>): (icon: string)
    ensures icon == "Server" <==> iconName.None? || iconName.value !in Keys(ICONS)
    ensures icon != "Server" ==> Get(ICONS, iconName.value) == Some(icon)
  {
    var key := iconName.GetOr("");
    assert "" !in Keys(ICONS);
    Get(ICONS, key).GetOr("Server")
  }
}
