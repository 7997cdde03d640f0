/**
 * Configuration import and export in the renderer (`useConfig`): the interchange document
 * `{version, exportedAt, servers}`, the defaults an imported entry receives, and the backup
 * list the configuration panel shows, whose timestamps are recovered from the backup file
 * names.  JSON text is not modelled: export yields the document value `JSON.stringify`
 * would render, and import starts from the outcome of `JSON.parse`.  Clock readings are
 * parameters.
 */
module ConfigExchange {
  import opened Wrappers
  import opened Records
  import opened Json
  import opened Strings
  import opened Types
  import PathResolver
  import ConfigIpc

  const EXPORT_VERSION := "1.0"
  const INVALID_FORMAT := "Invalid config format: missing servers array"
  /** The `TypeError` messages the renderer's engine gives for a property read on `null`. */
  const NULL_DATA_MESSAGE := "Cannot read properties of null (reading 'servers')"
  const NULL_ENTRY_MESSAGE := "Cannot read properties of null (reading 'name')"

  // ---------------------------------------------------------------------------------------
  // Export (`exportConfig`).

  /** An object literal's properties, some of them `undefined`. */
  type Props = seq<(string, Option<Json>)>

  function Names(props: Props): (ns: seq<string>)
    ensures |ns| == |props| && forall i :: 0 <= i < |props| ==> ns[i] == props[i].0
  {
    if props == [] then [] else [props[0].0] + Names(props[1..])
  }

  /** The members `JSON.stringify` renders: the properties whose value is not `undefined`, in order. */
  function Present(props: Props): (m: Members)
    ensures forall k :: k in Keys(m) ==> k in Names(props)
  {
    if props == [] then []
    else
      var rest := Present(props[1..]);
      assert Names(props) == [props[0].0] + Names(props[1..]);
      if props[0].1.Some? then
        var m := [(props[0].0, props[0].1.value)] + rest;
        assert Keys(m) == [props[0].0] + Keys(rest);
        m
      else rest
  }

  /** With distinct names, the rendered member named like property `i` holds that property's value. */
  lemma {:induction false} GetPresent(props: Props, i: nat)
    requires i < |props|
    requires forall j :: 0 <= j < |props| && j != i ==> props[j].0 != props[i].0
    ensures Get(Present(props), props[i].0) == props[i].1
  {
    var rest := Present(props[1..]);
    if i == 0 {
      if props[0].1.None? {
        assert props[0].0 !in Names(props[1..]);
      }
    } else {
      GetPresent(props[1..], i - 1);
    }
  }

  function StringJson(o: Option<string>): Option<Json>
  {
    if o.Some? then Some(String(o.value)) else None
  }

  function StringsJson(o: Option<seq<string>>): Option<Json>
  {
    if o.Some? then Some(Array(StringArray(o.value))) else None
  }

  function TransportName(t: Transport): string
  {
    match t
    case Stdio => "stdio"
    case Http => "http"
  }

  function RooProps(r: RooCline): Props
  {
    [("alwaysAllow", StringsJson(r.alwaysAllow)), ("autoApprove", StringsJson(r.autoApprove)),
     ("disabled", if r.disabled.Some? then Some(Bool(r.disabled.value)) else None)]
  }

  function SettingsJson(ts: ToolSettings): Json
  {
    Object(Present([("rooCline", if ts.rooCline.Some? then Some(Object(Present(RooProps(ts.rooCline.value)))) else None)]))
  }

  /** The property names an exported entry may carry, in the order the entry lists them. */
  const EXPORTED_KEYS := ["name", "command", "args", "env", "cwd", "transportType", "url", "toolSettings", "enabledTools"]

  /** The object literal `exportConfig` builds for one server. */
  function EntryProps(s: McpServer): (props: Props)
    ensures Names(props) == EXPORTED_KEYS
  {
    [("name", Some(String(s.name))), ("command", StringJson(s.command)), ("args", Some(Array(StringArray(s.args)))),
     ("env", if s.env.Some? then Some(Object(StringRecordJson(s.env.value))) else None),
     ("cwd", StringJson(s.cwd)),
     ("transportType", if s.transportType.Some? then Some(String(TransportName(s.transportType.value))) else None),
     ("url", StringJson(s.url)),
     ("toolSettings", if s.toolSettings.Some? then Some(SettingsJson(s.toolSettings.value)) else None),
     ("enabledTools", StringsJson(s.enabledTools))]
  }

  /** One exported entry: the server's definition without its id and its timestamps. */
  function ExportEntry(s: McpServer): (e: Json)
    ensures e.Object? && forall k :: k in Keys(e.members) ==> k in EXPORTED_KEYS
  {
    Object(Present(EntryProps(s)))
  }

  /** The id and the timestamps are not exported. */
  lemma ExportOmits(s: McpServer)
    ensures "id" !in Keys(ExportEntry(s).members)
    ensures "createdAt" !in Keys(ExportEntry(s).members) && "updatedAt" !in Keys(ExportEntry(s).members)
  {
    assert "id" !in EXPORTED_KEYS && "createdAt" !in EXPORTED_KEYS && "updatedAt" !in EXPORTED_KEYS;
  }

  /** `exportConfig`: the version, the export time and one entry per server, in order. */
  function ExportConfig(servers: seq<McpServer>, exportedAt: string): (doc: Json)
    ensures Field(doc, "version") == Some(String(EXPORT_VERSION))
    ensures Field(doc, "exportedAt") == Some(String(exportedAt))
    ensures Field(doc, "servers").Some? && Field(doc, "servers").value.Array?
    ensures var items := Field(doc, "servers").value.items;
      |items| == |servers| && forall i :: 0 <= i < |servers| ==> items[i] == ExportEntry(servers[i])
  {
    var m := [("version", String(EXPORT_VERSION)), ("exportedAt", String(exportedAt)),
      ("servers", Array(seq(|servers|, i requires 0 <= i < |servers| => ExportEntry(servers[i]))))];
    assert Get(m, "exportedAt") == Get(m[1..], "exportedAt");
    assert Get(m, "servers") == Get(m[1..], "servers") == Get(m[2..], "servers");
    Object(m)
  }

  // ---------------------------------------------------------------------------------------
  // Import (`importConfig`).

  /** The outcome of `JSON.parse` on the imported text. */
  datatype Parsed = ParseFailed(message: string) | ParsedDoc(data: Json)

  /** `{ servers, error? }`. */
  datatype Imported = Imported(servers: seq<McpServer>, error: Option<string>)

  /** JavaScript truthiness of a JSON value. */
  predicate Truthy(v: Json)
  {
    match v
    case Null => false
    case Bool(b) => b
    case Number(m, _) => m != 0
    case String(s) => s != ""
    case Array(_) => true
    case Object(_) => true
  }

  /** `` `imported_${Date.now()}_${index}` ``. */
  function ImportedId(now: nat, index: nat): string
  {
    "imported_" + NatToString(now) + "_" + NatToString(index)
  }

  /** `s.transportType || 'stdio'`. */
  function TransportField(s: Json): Transport
  {
    if StringField(s, "transportType") == Some("http") then Http else Stdio
  }

  function RooField(v: Json): Option<RooCline>
  {
    match Field(v, "rooCline")
    case Some(Object(m)) =>
      var r := Object(m);
      Some(RooCline(StringsField(r, "alwaysAllow"), StringsField(r, "autoApprove"), BoolField(r, "disabled")))
    case _ => None
  }

  /** `s.toolSettings`, copied when it is an object. */
  function SettingsField(s: Json): Option<ToolSettings>
  {
    match Field(s, "toolSettings")
    case Some(Object(m)) => Some(ToolSettings(RooField(Object(m))))
    case _ => None
  }

  /** `s.name || `Server ${index + 1}``. */
  function NameField(s: Json, index: nat): (name: string)
    ensures name != ""
  {
    match StringField(s, "name")
    case Some(n) => if n != "" then n else "Server " + NatToString(index + 1)
    case None => "Server " + NatToString(index + 1)
  }

  /** The record built for the entry at `index`; `stamp` is `new Date().toISOString()`. */
  function ImportEntry(s: Json, index: nat, now: nat, stamp: string): (r: McpServer)
    ensures r.id == ImportedId(now, index) && r.name != ""
    ensures r.transportType.Some? && r.enabledTools.Some?
    ensures r.createdAt == Some(stamp) && r.updatedAt == Some(stamp)
  {
    McpServer(ImportedId(now, index), NameField(s, index), Some(StringField(s, "command").GetOr("")),
      StringsField(s, "args").GetOr([]), StringRecordField(s, "env"), StringField(s, "cwd"),
      Some(TransportField(s)), StringField(s, "url"), SettingsField(s),
      Some(StringsField(s, "enabledTools").GetOr([])), Some(stamp), Some(stamp))
  }

  /** `!data.servers || !Array.isArray(data.servers)`, for data other than `null`. */
  predicate MissingServers(data: Json)
  {
    Field(data, "servers").None? || !Truthy(Field(data, "servers").value) || !Field(data, "servers").value.Array?
  }

  /** `importConfig`: a parse failure, a `TypeError` and a missing servers array are reported, never thrown. */
  function ImportConfig(input: Parsed, now: nat, stamp: string): (r: Imported)
    ensures r.error.Some? ==> r.servers == []
    ensures input.ParseFailed? ==> r.error == Some("Parse error: " + input.message)
    ensures r.error == Some(INVALID_FORMAT) <==> input.ParsedDoc? && input.data != Null && MissingServers(input.data)
    ensures r.error.None? <==> (input.ParsedDoc? && input.data != Null && !MissingServers(input.data)
      && Null !in Field(input.data, "servers").value.items)
    ensures r.error.None? ==> |r.servers| == |Field(input.data, "servers").value.items|
    ensures forall i :: 0 <= i < |r.servers| ==> r.servers[i].id == ImportedId(now, i)
  {
    match input
    case ParseFailed(message) =>
      assert ("Parse error: " + message)[0] != INVALID_FORMAT[0];
      Imported([], Some("Parse error: " + message))
    case ParsedDoc(data) =>
      if data == Null then Imported([], Some("Parse error: " + NULL_DATA_MESSAGE))
      else if MissingServers(data) then Imported([], Some(INVALID_FORMAT))
      else
        var items := Field(data, "servers").value.items;
        if Null in items then Imported([], Some("Parse error: " + NULL_ENTRY_MESSAGE))
        else Imported(seq(|items|, i requires 0 <= i < |items| => ImportEntry(items[i], i, now, stamp)), None)
  }

  /** Two entries of one import never share an id. */
  lemma ImportedIdsDistinct(now: nat, i: nat, j: nat)
    requires i != j
    ensures ImportedId(now, i) != ImportedId(now, j)
  {
    var p := "imported_" + NatToString(now) + "_";
    if ImportedId(now, i) == ImportedId(now, j) {
      assert (p + NatToString(i))[|p|..] == NatToString(i);
      assert (p + NatToString(j))[|p|..] == NatToString(j);
      NatToStringInjective(i, j);
    }
  }

  /** The servers of one successful import have pairwise distinct ids. */
  lemma ImportDistinct(input: Parsed, now: nat, stamp: string)
    ensures var r := ImportConfig(input, now, stamp);
      forall i, j :: 0 <= i < j < |r.servers| ==> r.servers[i].id != r.servers[j].id
  {
    var r := ImportConfig(input, now, stamp);
    forall i, j | 0 <= i < j < |r.servers|
      ensures r.servers[i].id != r.servers[j].id
    {
      ImportedIdsDistinct(now, i, j);
    }
  }

  /** An entry with none of the properties gets every default. */
  lemma ImportDefaults(index: nat, now: nat, stamp: string, s: Json)
    requires s.Object? && forall k :: k in Keys(s.members) ==> k !in EXPORTED_KEYS
    ensures var r := ImportEntry(s, index, now, stamp);
      r.name == "Server " + NatToString(index + 1) && r.command == Some("") && r.args == []
      && r.env == None && r.cwd == None && r.transportType == Some(Stdio) && r.url == None
      && r.toolSettings == None && r.enabledTools == Some([])
  {
    assert forall k :: k in EXPORTED_KEYS ==> Field(s, k).None?;
  }

  // ---------------------------------------------------------------------------------------
  // The round trip.

  lemma ExportedKeysDistinct()
    ensures forall i, j :: 0 <= i < |EXPORTED_KEYS| && 0 <= j < |EXPORTED_KEYS| && i != j ==> EXPORTED_KEYS[i] != EXPORTED_KEYS[j]
  {
  }

  /** Only the `http` transport reads back as `http`. */
  lemma TransportRoundTrip(t: Transport)
    ensures (TransportName(t) == "http") == (t == Http)
  {
  }

  /** The member of an exported entry named like its property `i`. */
  lemma EntryField(s: McpServer, i: nat)
    requires i < |EXPORTED_KEYS|
    ensures Field(ExportEntry(s), EntryProps(s)[i].0) == EntryProps(s)[i].1
  {
    var props := EntryProps(s);
    ExportedKeysDistinct();
    assert forall j :: 0 <= j < |props| ==> props[j].0 == EXPORTED_KEYS[j];
    GetPresent(props, i);
  }

  /** Reading the Roo Cline flags back from their export gives them unchanged. */
  lemma RooRoundTrip(r: RooCline)
    ensures RooField(Object([("rooCline", Object(Present(RooProps(r))))])) == Some(r)
  {
    var j := Object(Present(RooProps(r)));
    assert Field(Object([("rooCline", j)]), "rooCline") == Some(j);
    GetPresent(RooProps(r), 0);
    assert StringsField(j, "alwaysAllow") == r.alwaysAllow;
    GetPresent(RooProps(r), 1);
    assert StringsField(j, "autoApprove") == r.autoApprove;
    GetPresent(RooProps(r), 2);
    assert BoolField(j, "disabled") == r.disabled;
  }

  lemma SettingsRoundTrip(ts: ToolSettings)
    ensures SettingsField(Object([("toolSettings", SettingsJson(ts))])) == Some(ts)
  {
    if ts.rooCline.Some? {
      RooRoundTrip(ts.rooCline.value);
    }
  }

  /**
   * An exported entry imports as the server it came from, with the import's id and timestamps,
   * when the server has a non-empty name, a transport and an `enabledTools` list; a server
   * without a command is exported without one and imports with the empty command.
   */
  lemma EntryRoundTrip(s: McpServer, index: nat, now: nat, stamp: string)
    requires s.name != "" && s.transportType.Some? && s.enabledTools.Some?
    ensures ImportEntry(ExportEntry(s), index, now, stamp)
      == s.(id := ImportedId(now, index), command := Some(s.command.GetOr("")),
            createdAt := Some(stamp), updatedAt := Some(stamp))
  {
    DecodePlain(s, index);
    DecodeOptional(s);
    DecodeTransport(s);
    DecodeSettings(s);
    DecodeEnabled(s);
  }

  /** The name, the command and the arguments read back unchanged. */
  lemma DecodePlain(s: McpServer, index: nat)
    requires s.name != ""
    ensures var e := ExportEntry(s);
      NameField(e, index) == s.name && StringField(e, "command").GetOr("") == s.command.GetOr("")
      && StringsField(e, "args").GetOr([]) == s.args
  {
    DecodeName(s);
    DecodeCommand(s);
    DecodeArgs(s);
  }

  /** The environment, the working directory and the URL read back unchanged, absent or not. */
  lemma DecodeOptional(s: McpServer)
    ensures var e := ExportEntry(s);
      StringRecordField(e, "env") == s.env && StringField(e, "cwd") == s.cwd && StringField(e, "url") == s.url
  {
    DecodeEnv(s);
    DecodeCwd(s);
    DecodeUrl(s);
  }

  lemma DecodeName(s: McpServer)
    ensures StringField(ExportEntry(s), "name") == Some(s.name)
  {
    EntryField(s, 0);
  }

  lemma DecodeCommand(s: McpServer)
    ensures StringField(ExportEntry(s), "command") == s.command
  {
    EntryField(s, 1);
  }

  lemma DecodeArgs(s: McpServer)
    ensures StringsField(ExportEntry(s), "args") == Some(s.args)
  {
    EntryField(s, 2);
  }

  lemma DecodeEnv(s: McpServer)
    ensures StringRecordField(ExportEntry(s), "env") == s.env
  {
    EntryField(s, 3);
  }

  lemma DecodeCwd(s: McpServer)
    ensures StringField(ExportEntry(s), "cwd") == s.cwd
  {
    EntryField(s, 4);
  }

  lemma DecodeUrl(s: McpServer)
    ensures StringField(ExportEntry(s), "url") == s.url
  {
    EntryField(s, 6);
  }

  lemma DecodeTransport(s: McpServer)
    requires s.transportType.Some?
    ensures Some(TransportField(ExportEntry(s))) == s.transportType
  {
    EntryField(s, 5);
    TransportRoundTrip(s.transportType.value);
  }

  lemma DecodeSettings(s: McpServer)
    ensures SettingsField(ExportEntry(s)) == s.toolSettings
  {
    EntryField(s, 7);
    if s.toolSettings.Some? {
      SettingsRoundTrip(s.toolSettings.value);
    }
  }

  lemma DecodeEnabled(s: McpServer)
    requires s.enabledTools.Some?
    ensures Some(StringsField(ExportEntry(s), "enabledTools").GetOr([])) == s.enabledTools
  {
    EntryField(s, 8);
  }

  /** Exporting and importing again keeps every exported field of every server, in order. */
  lemma ExportImport(servers: seq<McpServer>, exportedAt: string, now: nat, stamp: string)
    requires forall s :: s in servers ==> s.name != "" && s.transportType.Some? && s.enabledTools.Some?
    ensures var r := ImportConfig(ParsedDoc(ExportConfig(servers, exportedAt)), now, stamp);
      r.error == None && |r.servers| == |servers|
      && forall i :: 0 <= i < |servers| ==>
        r.servers[i] == servers[i].(id := ImportedId(now, i), command := Some(servers[i].command.GetOr("")),
          createdAt := Some(stamp), updatedAt := Some(stamp))
  {
    var doc := ExportConfig(servers, exportedAt);
    var items := Field(doc, "servers").value.items;
    assert Null !in items;
    forall i | 0 <= i < |servers|
      ensures ImportEntry(items[i], i, now, stamp)
        == servers[i].(id := ImportedId(now, i), command := Some(servers[i].command.GetOr("")),
          createdAt := Some(stamp), updatedAt := Some(stamp))
    {
      EntryRoundTrip(servers[i], i, now, stamp);
    }
  }

  // ---------------------------------------------------------------------------------------
  // The backup list (`loadBackups`).

  const BACKUP_MARK := ".backup."

  /** The characters `.` does not match in a regular expression. */
  predicate IsLineTerminator(c: char)
  {
    c == '\n' || c == '\r' || c == '\U{2028}' || c == '\U{2029}'
  }

  /** `.backup.` occurs at `p`. */
  predicate MarkAt(path: string, p: nat)
  {
    p + |BACKUP_MARK| <= |path| && path[p..p + |BACKUP_MARK|] == BACKUP_MARK
  }

  /** `/\.backup\.(.+)$/` matches at `p`: the mark, then at least one character up to the end, none a line terminator. */
  predicate MatchAt(path: string, p: nat)
  {
    p + |BACKUP_MARK| < |path| && MarkAt(path, p)
    && forall k :: p + |BACKUP_MARK| <= k < |path| ==> !IsLineTerminator(path[k])
  }

  /** The leftmost match at or after `from`, as the regular expression search finds it. */
  function FirstMatch(path: string, from: nat): (r: Option<nat>)
    ensures r.Some? ==> (from <= r.value && MatchAt(path, r.value)
      && forall q :: from <= q < r.value ==> !MatchAt(path, q))
    ensures r.None? ==> forall q :: from <= q ==> !MatchAt(path, q)
    decreases |path| - from
  {
    if from + |BACKUP_MARK| >= |path| then None
    else if MatchAt(path, from) then Some(from)
    else FirstMatch(path, from + 1)
  }

  /** `match ? match[1].replace(/-/g, ':') : new Date().toISOString()`. */
  function BackupTimestamp(path: string, now: string): (t: string)
    ensures FirstMatch(path, 0).None? ==> t == now
    ensures FirstMatch(path, 0).Some? ==> var p := FirstMatch(path, 0).value;
      |t| == |path| - p - |BACKUP_MARK| && '-' !in t
      && forall i :: 0 <= i < |t| ==> t[i] == if path[p + |BACKUP_MARK| + i] == '-' then ':' else path[p + |BACKUP_MARK| + i]
  {
    match FirstMatch(path, 0)
    case Some(p) => ReplaceChars(path[p + |BACKUP_MARK|..], {'-'}, ':')
    case None => now
  }

  /** The entries the panel shows for the listed backup paths, in listing order. */
  function LoadedBackups(paths: seq<string>, tool: Tool, now: string): (bs: seq<Backup>)
    ensures |bs| == |paths|
    ensures forall i :: 0 <= i < |paths| ==> bs[i].configPath == paths[i] && bs[i].toolId == tool.id && bs[i].content == ""
    ensures forall i, j :: 0 <= i < j < |paths| ==> bs[i].id != bs[j].id
  {
    var bs := seq(|paths|, i requires 0 <= i < |paths| =>
      Backup("backup_" + NatToString(i), BackupTimestamp(paths[i], now), tool.id, paths[i], ""));
    forall i, j | 0 <= i < j < |paths|
      ensures bs[i].id != bs[j].id
    {
      if bs[i].id == bs[j].id {
        assert bs[i].id[|"backup_"|..] == NatToString(i);
        assert bs[j].id[|"backup_"|..] == NatToString(j);
        NatToStringInjective(i, j);
      }
    }
    bs
  }

  /** Replacing `:` and `.` by `-` and then `-` by `:` replaces all three by `:`. */
  lemma ReplaceTwice(s: string)
    ensures ReplaceChars(ReplaceChars(s, {':', '.'}, '-'), {'-'}, ':') == ReplaceChars(s, {':', '.', '-'}, ':')
  {
  }

  /**
   * The timestamp read back from a backup `createBackup` named: its ISO time with every `-`,
   * `:` and `.` shown as `:`, so the date's dashes come back as colons too.  It holds when no
   * earlier `.backup.` occurs in the path.
   */
  lemma TimestampOfBackup(filePath: string, iso: string, now: string)
    requires iso != "" && forall i :: 0 <= i < |iso| ==> !IsLineTerminator(iso[i])
    requires var path := ConfigIpc.BackupPath(filePath, iso);
      var start := |path| - |iso| - |BACKUP_MARK|;
      forall q :: 0 <= q < start ==> !MarkAt(path, q)
    ensures BackupTimestamp(ConfigIpc.BackupPath(filePath, iso), now) == ReplaceChars(iso, {':', '.', '-'}, ':')
  {
    var path := ConfigIpc.BackupPath(filePath, iso);
    var ts := ConfigIpc.Timestamp(iso);
    var dir, base := PathResolver.Dirname(filePath), PathResolver.Basename(filePath);
    assert path == dir + "/" + (base + ConfigIpc.BACKUP_EXTENSION + "." + ts);
    var head := dir + "/" + base;
    assert path == head + BACKUP_MARK + ts;
    TimestampAfterMark(head, ts, now);
    ReplaceTwice(iso);
  }

  /** The timestamp of a path whose first `.backup.` is followed by `ts`. */
  lemma TimestampAfterMark(head: string, ts: string, now: string)
    requires ts != [] && forall i :: 0 <= i < |ts| ==> !IsLineTerminator(ts[i])
    requires forall q :: 0 <= q < |head| ==> !MarkAt(head + BACKUP_MARK + ts, q)
    ensures BackupTimestamp(head + BACKUP_MARK + ts, now) == ReplaceChars(ts, {'-'}, ':')
  {
    var path := head + BACKUP_MARK + ts;
    var start := |head|;
    assert path[start..start + |BACKUP_MARK|] == BACKUP_MARK;
    assert path[start + |BACKUP_MARK|..] == ts;
    assert MatchAt(path, start);
    var r := FirstMatch(path, 0);
    assert r.Some?;
    assert MarkAt(path, r.value);
    assert r.value == start;
  }

  /** The configuration panel's backup list (`backups` state). */
  class BackupPanel {
    var backups: seq<Backup>

    constructor()
      ensures backups == []
    {
      backups := [];
    }

    /** `loadBackups`: without the bridge (`files == null`) nothing changes. */
    method LoadBackups(files: ConfigIpc.FileStore?, tool: Tool, now: string)
      modifies this
      ensures files == null ==> backups == old(backups)
      ensures files != null ==> backups == LoadedBackups(files.ListBackups(tool.configPath), tool, now)
    {
      if files == null {
        return;
      }
      var backupPaths := files.ListBackups(tool.configPath);
      backups := LoadedBackups(backupPaths, tool, now);
    }
  }

  /** `restoreBackup`: false without the bridge, otherwise the main process's answer. */
  method RestoreBackup(files: ConfigIpc.FileStore?, backup: Backup, targetPath: string) returns (ok: bool)
    requires files != null ==> files.Valid()
    modifies files
    ensures files == null ==> !ok
    ensures files != null ==> files.Valid()
    ensures files != null ==> (ok <==> (ConfigIpc.Lookup(old(files.dirs), backup.configPath).Some?
      && PathResolver.Dirname(targetPath) in old(files.dirs) && PathResolver.Dirname(targetPath) !in files.readOnly))
    ensures files != null && ok ==>
      files.dirs == ConfigIpc.Store(old(files.dirs), targetPath, ConfigIpc.Lookup(old(files.dirs), backup.configPath).value)
    ensures files != null && !ok ==> files.dirs == old(files.dirs)
  {
    if files == null {
      return false;
    }
    ok := files.RestoreBackup(backup.configPath, targetPath);
  }

  /** `createBackup`: `null` without the bridge, otherwise the main process's answer. */
  method CreateBackup(files: ConfigIpc.FileStore?, tool: Tool, iso: string) returns (backupPath: Option<string>)
    requires files != null ==> files.Valid()
    requires '/' !in iso && '\\' !in iso
    modifies files
    ensures files == null ==> backupPath.None?
    ensures files != null ==> files.Valid()
    ensures files != null ==> (backupPath.Some? <==> (ConfigIpc.Lookup(old(files.dirs), tool.configPath).Some?
      && PathResolver.Dirname(tool.configPath) !in files.readOnly))
    ensures files != null && backupPath.Some? ==> backupPath.value == ConfigIpc.BackupPath(tool.configPath, iso)
    ensures files != null && backupPath.Some? ==> files.dirs == ConfigIpc.WithBackup(old(files.dirs), tool.configPath, iso)
    ensures files != null && backupPath.None? ==> files.dirs == old(files.dirs)
  {
    if files == null {
      return None;
    }
    backupPath := files.CreateBackup(tool.configPath, iso);
  }
}
