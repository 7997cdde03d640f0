/**
 * The records OneMCP passes around: the canonical server definition (`McpServer`), the tool
 * descriptors (`Tool`, `ToolDefinition`), the user preferences and their parts.  Optional
 * (`?:`) properties are `Option`s; `undefined` is `None`.
 */
module Types {
  import opened Wrappers
  import opened Records

  datatype Transport = Stdio | Http

  /** Roo Cline's per-server flags (`RooClineSettings`). */
  datatype RooCline = RooCline(
    alwaysAllow: Option<seq<string>>,
    autoApprove: Option<seq<string>>,
    disabled: Option<bool>)

  datatype ToolSettings = ToolSettings(rooCline: Option<RooCline>)

  /** Environment variables, in insertion order. */
  type Env = Record<string>

  /** One server definition in the canonical list. */
  datatype McpServer = McpServer(
    id: string,
    name: string,
    command: Option<string>,
    args: seq<string>,
    env: Option<Env>,
    cwd: Option<string>,
    transportType: Option<Transport>,
    url: Option<string>,
    toolSettings: Option<ToolSettings>,
    enabledTools: Option<seq<string>>,
    createdAt: Option<string>,
    updatedAt: Option<string>)

  /**
   * One property of a `Partial<...>` update object: absent (`Keep`) or present with a value
   * (`Set`); for an optional property `Set(None)` is an explicit `undefined`, which a spread copies.
   */
  datatype Patch<T> = Keep | Set(value: T)
  {
    function Over(current: T): T
    {
      if Set? then value else current
    }
  }

  /** `Partial<McpServer>`. */
  datatype ServerPatch = ServerPatch(
    id: Patch<string>,
    name: Patch<string>,
    command: Patch<Option<string>>,
    args: Patch<seq<string>>,
    env: Patch<Option<Env>>,
    cwd: Patch<Option<string>>,
    transportType: Patch<Option<Transport>>,
    url: Patch<Option<string>>,
    toolSettings: Patch<Option<ToolSettings>>,
    enabledTools: Patch<Option<seq<string>>>,
    createdAt: Patch<Option<string>>,
    updatedAt: Patch<Option<string>>)

  /** `{...s, ...p}`: every property present in `p` replaces the one in `s`. */
  function ApplyPatch(s: McpServer, p: ServerPatch): McpServer
  {
    McpServer(p.id.Over(s.id), p.name.Over(s.name), p.command.Over(s.command), p.args.Over(s.args),
      p.env.Over(s.env), p.cwd.Over(s.cwd), p.transportType.Over(s.transportType), p.url.Over(s.url),
      p.toolSettings.Over(s.toolSettings), p.enabledTools.Over(s.enabledTools),
      p.createdAt.Over(s.createdAt), p.updatedAt.Over(s.updatedAt))
  }

  /** The update object the server form hands to `editServer`: every property but the timestamps. */
  function FormPatch(s: McpServer): (p: ServerPatch)
    ensures p.createdAt == Keep && p.updatedAt == Keep
  {
    ServerPatch(Set(s.id), Set(s.name), Set(s.command), Set(s.args), Set(s.env), Set(s.cwd),
      Set(s.transportType), Set(s.url), Set(s.toolSettings), Set(s.enabledTools), Keep, Keep)
  }

  /** `s.enabledTools?.includes(toolId)`: false when the list is undefined. */
  predicate EnabledFor(s: McpServer, toolId: string)
  {
    s.enabledTools.Some? && toolId in s.enabledTools.value
  }

  datatype ConfigFormat = McpServersFormat | ServersFormat | McpDotServersFormat
  {
    /** The format's name as written in tool descriptors. */
    function Name(): string
    {
      match this
      case McpServersFormat => "mcpServers"
      case ServersFormat => "servers"
      case McpDotServersFormat => "mcp.servers"
    }
  }

  datatype Platform = Win32 | Darwin | Linux

  /** A built-in tool's path template per platform. */
  datatype Platforms = Platforms(win32: Option<string>, darwin: Option<string>, linux: Option<string>)
  {
    function For(p: Platform): Option<string>
    {
      match p
      case Win32 => win32
      case Darwin => darwin
      case Linux => linux
    }
  }

  /** The `supports*` capability flags a tool descriptor carries. */
  datatype Capabilities = Capabilities(
    supportsAlwaysAllow: Option<bool>,
    supportsAutoApprove: Option<bool>,
    supportsDisabled: Option<bool>)

  datatype ToolDefinition = ToolDefinition(
    id: string,
    name: string,
    icon: Option<string>,
    platforms: Platforms,
    configFormat: ConfigFormat,
    serverKey: string,
    caps: Capabilities)

  /** A tool descriptor; a custom tool (`CustomTool`) is one with `isBuiltIn` false and an `addedAt`. */
  datatype Tool = Tool(
    id: string,
    name: string,
    icon: Option<string>,
    configPath: string,
    configFormat: ConfigFormat,
    serverKey: Option<string>,
    caps: Capabilities,
    isBuiltIn: bool,
    isInstalled: Option<bool>,
    addedAt: Option<string>)

  predicate IsCustomTool(t: Tool)
  {
    !t.isBuiltIn && t.addedAt.Some?
  }

  /** `tool.isInstalled` read as a condition (`undefined` is falsy). */
  predicate Installed(t: Tool)
  {
    t.isInstalled == Some(true)
  }

  datatype ToolOverride = ToolOverride(name: Option<string>, configPath: Option<string>)

  datatype Theme = Light | Dark | System

  datatype Profile = Profile(
    id: string,
    name: string,
    servers: seq<McpServer>,
    createdAt: string,
    updatedAt: string)

  datatype Preferences = Preferences(
    theme: Theme,
    customTools: seq<Tool>,
    profiles: seq<Profile>,
    activeProfileId: Option<string>,
    backupEnabled: bool,
    maxBackups: int,
    toolOverrides: Option<Record<ToolOverride>>,
    hiddenTools: Option<seq<string>>)

  /** `Partial<UserPreferences>`. */
  datatype PreferencesPatch = PreferencesPatch(
    theme: Patch<Theme>,
    customTools: Patch<seq<Tool>>,
    profiles: Patch<seq<Profile>>,
    activeProfileId: Patch<Option<string>>,
    backupEnabled: Patch<bool>,
    maxBackups: Patch<int>,
    toolOverrides: Patch<Option<Record<ToolOverride>>>,
    hiddenTools: Patch<Option<seq<string>>>)

  datatype LogLevel = Info | Warn | Error

  datatype LogEntry = LogEntry(id: int, timestamp: string, level: LogLevel, message: string)

  /** A backup as the backup list shows it. */
  datatype Backup = Backup(id: string, timestamp: string, toolId: string, configPath: string, content: string)
}
