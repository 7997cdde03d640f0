/**
 * The config codec: the translation between the canonical server list and the per-tool
 * configuration documents (`src/lib/configManager.ts`).  A tool's document holds a
 * `name -> entry` object at the tool's server key (`mcpServers`, `servers`, or a dotted path
 * such as `mcp.servers`); everything else in the document belongs to the tool and is kept.
 */
module ConfigManager {
  import opened Wrappers
  import opened Records
  import opened Json
  import opened Strings
  import opened Lists
  import opened Types
  import ServerSchema

  /** The tool whose entries carry the Roo Cline flags. */
  const ROO_CLINE := "roo-cline"
  /** The server key used when a tool names none (or an empty one). */
  const DEFAULT_SERVER_KEY := "mcpServers"

  // ---------------------------------------------------------------------------------------
  // Encoding: servers to a `name -> entry` object.

  /** A server is written to a tool when its `enabledTools` is undefined or lists the tool. */
  predicate Included(s: McpServer, toolId: string)
  {
    s.enabledTools.None? || toolId in s.enabledTools.value
  }

  /** A member that is present only when `cond` holds. */
  function Opt(cond: bool, k: string, v: Json): Members
  {
    if cond then [(k, v)] else []
  }

  predicate HasArgs(s: McpServer) { |s.args| > 0 }
  predicate HasEnv(s: McpServer) { s.env.Some? && |s.env.value| > 0 }
  predicate HasCwd(s: McpServer) { s.cwd.Some? && s.cwd.value != "" }
  /** `url` is written only for an HTTP server with a non-empty URL. */
  predicate HasUrl(s: McpServer) { s.transportType == Some(Http) && s.url.Some? && s.url.value != "" }
  predicate HasRoo(s: McpServer, toolId: string)
  {
    toolId == ROO_CLINE && s.toolSettings.Some? && s.toolSettings.value.rooCline.Some?
  }

  /** The Roo Cline settings of a server, all absent when it has none. */
  function RooOf(s: McpServer): RooCline
  {
    if s.toolSettings.Some? && s.toolSettings.value.rooCline.Some? then s.toolSettings.value.rooCline.value
    else RooCline(None, None, None)
  }

  /**
   * The entry `serversToToolConfig` writes for one server: `command` when it is defined (`JSON.stringify` drops an
   * `undefined` member), then each conditional
   * field in the order the source assigns them.
   */
  function EncodeEntry(s: McpServer, toolId: string): Json
  {
    Object(Concat(EntryParts(s, toolId)))
  }

  /**
   * The object the loop of `serversToToolConfig` has built after the servers `ss`, for any way
   * `entry` of turning one server into its entry: `result[s.name] = entry(s)` per included server.
   */
  function AssignAll(ss: seq<McpServer>, toolId: string, entry: McpServer -> Json): Members
  {
    if ss == [] then []
    else
      var r := AssignAll(ss[..|ss| - 1], toolId, entry);
      var s := ss[|ss| - 1];
      if Included(s, toolId) then Put(r, s.name, entry(s)) else r
  }

  /** The `name -> entry` object `serversToToolConfig` returns. */
  function EncodeAll(ss: seq<McpServer>, toolId: string): Members
  {
    AssignAll(ss, toolId, s => EncodeEntry(s, toolId))
  }

  /** `serversToToolConfig`: one `result[server.name] = entry` per included server. */
  method ServersToToolConfig(servers: seq<McpServer>, tool: Tool) returns (result: Members)
    ensures result == EncodeAll(servers, tool.id)
  {
    ghost var entry := s => EncodeEntry(s, tool.id);
    result := [];
    var i := 0;
    while i < |servers|
      invariant 0 <= i <= |servers|
      invariant result == AssignAll(servers[..i], tool.id, entry)
    {
      var server := servers[i];
      assert servers[..i + 1][..i] == servers[..i];
      if Included(server, tool.id) {
        result := Put(result, server.name, EncodeEntry(server, tool.id));
      }
      i := i + 1;
    }
    assert servers[..i] == servers;
  }

  /** The names of the servers written to the tool, in list order, repeats included. */
  function IncludedNames(ss: seq<McpServer>, toolId: string): (ns: seq<string>)
    ensures forall n :: n in ns <==> exists i :: 0 <= i < |ss| && Included(ss[i], toolId) && ss[i].name == n
  {
    if ss == [] then []
    else
      var p := IncludedNames(ss[..|ss| - 1], toolId);
      var s := ss[|ss| - 1];
      assert forall i :: 0 <= i < |ss| - 1 ==> ss[..|ss| - 1][i] == ss[i];
      if Included(s, toolId) then p + [s.name] else p
  }

  lemma {:induction false} AssignAllKeys(ss: seq<McpServer>, toolId: string, entry: McpServer -> Json)
    ensures Keys(AssignAll(ss, toolId, entry)) == Dedup(IncludedNames(ss, toolId))
  {
    if ss != [] {
      var p := ss[..|ss| - 1];
      var s := ss[|ss| - 1];
      AssignAllKeys(p, toolId, entry);
      if Included(s, toolId) {
        KeysPut(AssignAll(p, toolId, entry), s.name, entry(s));
        var ns := IncludedNames(ss, toolId);
        assert ns[..|ns| - 1] == IncludedNames(p, toolId);
      }
    }
  }

  /** The keys are the names of the included servers, each once, in order of first appearance. */
  lemma EncodeAllKeys(ss: seq<McpServer>, toolId: string)
    ensures Keys(EncodeAll(ss, toolId)) == Dedup(IncludedNames(ss, toolId))
  {
    AssignAllKeys(ss, toolId, s => EncodeEntry(s, toolId));
  }

  lemma {:induction false} AssignAllUnique(ss: seq<McpServer>, toolId: string, entry: McpServer -> Json)
    ensures UniqueKeys(AssignAll(ss, toolId, entry))
  {
    if ss != [] {
      var p := ss[..|ss| - 1];
      AssignAllUnique(p, toolId, entry);
      var s := ss[|ss| - 1];
      if Included(s, toolId) {
        PutKeepsUnique(AssignAll(p, toolId, entry), s.name, entry(s));
      }
    }
  }

  lemma EncodeAllUnique(ss: seq<McpServer>, toolId: string)
    ensures UniqueKeys(EncodeAll(ss, toolId))
  {
    AssignAllUnique(ss, toolId, s => EncodeEntry(s, toolId));
  }

  lemma {:induction false} AssignAllLastWins(ss: seq<McpServer>, toolId: string, entry: McpServer -> Json, i: nat)
    requires i < |ss| && Included(ss[i], toolId)
    requires forall j :: i < j < |ss| && Included(ss[j], toolId) ==> ss[j].name != ss[i].name
    ensures Get(AssignAll(ss, toolId, entry), ss[i].name) == Some(entry(ss[i]))
  {
    var p := ss[..|ss| - 1];
    var s := ss[|ss| - 1];
    var r := AssignAll(p, toolId, entry);
    if i == |ss| - 1 {
      GetPutSame(r, s.name, entry(s));
    } else {
      assert p[i] == ss[i];
      assert forall j :: i < j < |p| ==> p[j] == ss[j];
      AssignAllLastWins(p, toolId, entry, i);
      if Included(s, toolId) {
        GetPutOther(r, s.name, entry(s), ss[i].name);
      }
    }
  }

  /** For a repeated name the last included server with that name supplies the entry. */
  lemma EncodeAllLastWins(ss: seq<McpServer>, toolId: string, i: nat)
    requires i < |ss| && Included(ss[i], toolId)
    requires forall j :: i < j < |ss| && Included(ss[j], toolId) ==> ss[j].name != ss[i].name
    ensures Get(EncodeAll(ss, toolId), ss[i].name) == Some(EncodeEntry(ss[i], toolId))
  {
    AssignAllLastWins(ss, toolId, s => EncodeEntry(s, toolId), i);
  }

  /** A name no included server has is not a key. */
  lemma EncodeAllAbsent(ss: seq<McpServer>, toolId: string, k: string)
    requires forall j :: 0 <= j < |ss| && Included(ss[j], toolId) ==> ss[j].name != k
    ensures Get(EncodeAll(ss, toolId), k) == None
  {
    EncodeAllKeys(ss, toolId);
  }

  lemma {:induction false} AssignAllDistinct(ss: seq<McpServer>, toolId: string, entry: McpServer -> Json)
    requires forall i :: 0 <= i < |ss| ==> Included(ss[i], toolId)
    requires forall i, j :: 0 <= i < j < |ss| ==> ss[i].name != ss[j].name
    ensures |AssignAll(ss, toolId, entry)| == |ss|
    ensures forall i :: 0 <= i < |ss| ==> AssignAll(ss, toolId, entry)[i] == (ss[i].name, entry(ss[i]))
  {
    if ss != [] {
      var p := ss[..|ss| - 1];
      var s := ss[|ss| - 1];
      DropLastDistinct(ss, toolId);
      AssignAllDistinct(p, toolId, entry);
      var r := AssignAll(p, toolId, entry);
      FreshKey(r, p, s.name);
      var full := r + [(s.name, entry(s))];
      assert AssignAll(ss, toolId, entry) == full;
      forall i | 0 <= i < |ss|
        ensures full[i] == (ss[i].name, entry(ss[i]))
      {
        if i < |p| {
          assert full[i] == r[i] && ss[i] == p[i];
        }
      }
    }
  }

  lemma DropLastDistinct(ss: seq<McpServer>, toolId: string)
    requires |ss| > 0
    requires forall i :: 0 <= i < |ss| ==> Included(ss[i], toolId)
    requires forall i, j :: 0 <= i < j < |ss| ==> ss[i].name != ss[j].name
    ensures var p := ss[..|ss| - 1];
      (forall i :: 0 <= i < |p| ==> p[i] == ss[i] && p[i].name != ss[|ss| - 1].name && Included(p[i], toolId))
      && (forall i, j :: 0 <= i < j < |p| ==> p[i].name != p[j].name)
  {
  }

  lemma FreshKey(r: Members, p: seq<McpServer>, k: string)
    requires |r| == |p|
    requires forall i :: 0 <= i < |p| ==> r[i].0 == p[i].name && p[i].name != k
    ensures k !in Keys(r)
  {
  }

  /** Servers with distinct names, all enabled for the tool, are written one entry each, in order. */
  lemma EncodeAllDistinct(ss: seq<McpServer>, toolId: string)
    requires forall i :: 0 <= i < |ss| ==> Included(ss[i], toolId)
    requires forall i, j :: 0 <= i < j < |ss| ==> ss[i].name != ss[j].name
    ensures |EncodeAll(ss, toolId)| == |ss|
    ensures forall i :: 0 <= i < |ss| ==> EncodeAll(ss, toolId)[i] == (ss[i].name, EncodeEntry(ss[i], toolId))
  {
    AssignAllDistinct(ss, toolId, s => EncodeEntry(s, toolId));
  }

  // ---------------------------------------------------------------------------------------
  // Entry fields.

  lemma {:induction false} GetAppend<V>(a: Record<V>, b: Record<V>, k: string)
    ensures Get(a + b, k) == if Get(a, k).Some? then Get(a, k) else Get(b, k)
  {
    var ab := a + b;
    if a == [] {
      assert ab == b;
    } else if a[0].0 == k {
      assert ab[0] == a[0];
      assert Get(ab, k) == Some(a[0].1);
    } else {
      assert ab[0] == a[0];
      assert ab[1..] == a[1..] + b;
      assert Get(ab, k) == Get(a[1..] + b, k);
      GetAppend(a[1..], b, k);
    }
  }

  lemma GetOpt(cond: bool, k: string, v: Json, k': string)
    ensures Get(Opt(cond, k, v), k') == if cond && k == k' then Some(v) else None
  {
  }

  /** Each field of an entry is present exactly under the condition `serversToToolConfig` tests. */
  lemma EncodeEntryFields(s: McpServer, toolId: string)
    ensures Field(EncodeEntry(s, toolId), "command") == if s.command.Some? then Some(String(s.command.value)) else None
    ensures Field(EncodeEntry(s, toolId), "args") == if HasArgs(s) then Some(Array(StringArray(s.args))) else None
    ensures Field(EncodeEntry(s, toolId), "env")
      == if HasEnv(s) then Some(Object(StringRecordJson(s.env.value))) else None
    ensures Field(EncodeEntry(s, toolId), "cwd") == if HasCwd(s) then Some(String(s.cwd.value)) else None
    ensures Field(EncodeEntry(s, toolId), "url") == if HasUrl(s) then Some(String(s.url.value)) else None
  {
    EntryGet(s, toolId, 0);
    EntryGet(s, toolId, 1);
    EntryGet(s, toolId, 2);
    EntryGet(s, toolId, 3);
    EntryGet(s, toolId, 4);
  }

  /** The Roo Cline flags are written for the tool `roo-cline` only, each when it is set. */
  lemma EncodeEntryRooFields(s: McpServer, toolId: string)
    ensures Field(EncodeEntry(s, toolId), "alwaysAllow")
      == if HasRoo(s, toolId) && RooOf(s).alwaysAllow.Some? then Some(Array(StringArray(RooOf(s).alwaysAllow.value))) else None
    ensures Field(EncodeEntry(s, toolId), "autoApprove")
      == if HasRoo(s, toolId) && RooOf(s).autoApprove.Some? then Some(Array(StringArray(RooOf(s).autoApprove.value))) else None
    ensures Field(EncodeEntry(s, toolId), "disabled")
      == if HasRoo(s, toolId) && RooOf(s).disabled.Some? then Some(Bool(RooOf(s).disabled.value)) else None
  {
    EntryGet(s, toolId, 5);
    EntryGet(s, toolId, 6);
    EntryGet(s, toolId, 7);
  }

  /** The keys an entry can have, in the order they are written. */
  const ENTRY_KEYS: seq<string> := ["command", "args", "env", "cwd", "url", "alwaysAllow", "autoApprove", "disabled"]

  lemma EntryKeysDistinct()
    ensures |ENTRY_KEYS| == 8
    ensures forall a, b :: 0 <= a < b < 8 ==> ENTRY_KEYS[a] != ENTRY_KEYS[b]
  {
    var names := ENTRY_KEYS;
    assert names[3][0] != names[2][0] && names[3][0] != names[4][0] && names[2][0] != names[4][0];
    assert names[5][2] != names[6][2];
  }

  lemma EntryPartShape(s: McpServer, toolId: string, j: nat)
    requires j < 8
    ensures |EntryParts(s, toolId)| == 8
    ensures |EntryParts(s, toolId)[j]| <= 1
    ensures |EntryParts(s, toolId)[j]| == 1 ==> EntryParts(s, toolId)[j][0].0 == ENTRY_KEYS[j]
  {
    var ps := EntryParts(s, toolId);
    if j == 0 { assert ps[j] == Opt(s.command.Some?, "command", String(s.command.GetOr(""))); }
    else if j == 1 { assert ps[j] == Opt(HasArgs(s), "args", Array(StringArray(s.args))); }
    else if j == 2 { assert ps[j] == Opt(HasEnv(s), "env", Object(StringRecordJson(s.env.GetOr([])))); }
    else if j == 3 { assert ps[j] == Opt(HasCwd(s), "cwd", String(s.cwd.GetOr(""))); }
    else if j == 4 { assert ps[j] == Opt(HasUrl(s), "url", String(s.url.GetOr(""))); }
  }

  /** The eight parts an entry is the concatenation of, in order. */
  function EntryParts(s: McpServer, toolId: string): seq<Members>
  {
    var r := RooOf(s);
    var roo := HasRoo(s, toolId);
    [Opt(s.command.Some?, "command", String(s.command.GetOr(""))),
     Opt(HasArgs(s), "args", Array(StringArray(s.args))),
     Opt(HasEnv(s), "env", Object(StringRecordJson(s.env.GetOr([])))),
     Opt(HasCwd(s), "cwd", String(s.cwd.GetOr(""))),
     Opt(HasUrl(s), "url", String(s.url.GetOr(""))),
     Opt(roo && r.alwaysAllow.Some?, "alwaysAllow", Array(StringArray(r.alwaysAllow.GetOr([])))),
     Opt(roo && r.autoApprove.Some?, "autoApprove", Array(StringArray(r.autoApprove.GetOr([])))),
     Opt(roo && r.disabled.Some?, "disabled", Bool(r.disabled.GetOr(false)))]
  }

  function Concat(parts: seq<Members>): Members
  {
    if parts == [] then [] else Concat(parts[..|parts| - 1]) + parts[|parts| - 1]
  }

  /** Reading `k` from concatenated parts: parts without `k` are skipped. */
  lemma {:induction false} GetConcatSkip(parts: seq<Members>, i: nat, k: string)
    requires i < |parts|
    requires forall j :: 0 <= j < |parts| && j != i ==> Get(parts[j], k).None?
    ensures Get(Concat(parts), k) == Get(parts[i], k)
  {
    var p := parts[..|parts| - 1];
    GetAppend(Concat(p), parts[|parts| - 1], k);
    if i < |parts| - 1 {
      GetConcatSkip(p, i, k);
    } else {
      GetConcatNone(p, k);
    }
  }

  lemma {:induction false} GetConcatNone(parts: seq<Members>, k: string)
    requires forall j :: 0 <= j < |parts| ==> Get(parts[j], k).None?
    ensures Get(Concat(parts), k).None?
  {
    if parts != [] {
      var p := parts[..|parts| - 1];
      GetAppend(Concat(p), parts[|parts| - 1], k);
      GetConcatNone(p, k);
    }
  }

  /** Part `i` is the only part of an entry that can hold the key of part `i`. */
  lemma EntryGet(s: McpServer, toolId: string, i: nat)
    requires i < 8
    ensures Get(EncodeEntry(s, toolId).members, ENTRY_KEYS[i]) == Get(EntryParts(s, toolId)[i], ENTRY_KEYS[i])
  {
    var ps := EntryParts(s, toolId);
    EntryKeysDistinct();
    forall j | 0 <= j < 8 && j != i ensures Get(ps[j], ENTRY_KEYS[i]).None? {
      EntryPartShape(s, toolId, j);
    }
    GetConcatSkip(ps, i, ENTRY_KEYS[i]);
  }

  // ---------------------------------------------------------------------------------------
  // The server key path.

  /** `tool.serverKey || 'mcpServers'`. */
  function ServerKey(tool: Tool): (k: string)
    ensures k != ""
  {
    if tool.serverKey.Some? && tool.serverKey.value != "" then tool.serverKey.value else DEFAULT_SERVER_KEY
  }

  /** The key path `serverKey.split('.')`; a key without a dot is a path of one segment. */
  function KeyPath(tool: Tool): (keys: seq<string>)
    ensures |keys| >= 1
    ensures '.' !in ServerKey(tool) ==> keys == [ServerKey(tool)]
  {
    Split(ServerKey(tool), '.')
  }

  /**
   * The document with the value at `keys` set to `v`, as `buildFullConfig` builds it: each
   * level is a copy of the object found there (a missing or non-object value becomes `{}`),
   * with the next key assigned in place or appended.
   */
  function SetPath(doc: Json, keys: seq<string>, v: Json): (r: Json)
    requires |keys| >= 1
    ensures r.Object?
    decreases |keys|
  {
    var m := MembersOf(doc);
    if |keys| == 1 then Object(Put(m, keys[0], v))
    else Object(Put(m, keys[0], SetPath(Get(m, keys[0]).GetOr(Null), keys[1..], v)))
  }

  /** The value at `keys`, descending through objects only (the walk of `toolConfigToServers`). */
  function Navigate(doc: Json, keys: seq<string>): Option<Json>
    decreases |keys|
  {
    if keys == [] then Some(doc)
    else match Field(doc, keys[0])
      case None => None
      case Some(c) => Navigate(c, keys[1..])
  }

  /** After `SetPath`, the path leads to the value just set. */
  lemma {:induction false} NavigateSetPath(doc: Json, keys: seq<string>, v: Json)
    requires |keys| >= 1
    ensures Navigate(SetPath(doc, keys, v), keys) == Some(v)
    decreases |keys|
  {
    var m := MembersOf(doc);
    if |keys| == 1 {
      GetPutSame(m, keys[0], v);
    } else {
      var child := SetPath(Get(m, keys[0]).GetOr(Null), keys[1..], v);
      GetPutSame(m, keys[0], child);
      NavigateSetPath(Get(m, keys[0]).GetOr(Null), keys[1..], v);
    }
  }

  /** Top-level keys other than the first segment keep their values (and stay absent if absent). */
  lemma SetPathOtherTop(doc: Json, keys: seq<string>, v: Json, k: string)
    requires |keys| >= 1 && k != keys[0]
    ensures Get(SetPath(doc, keys, v).members, k) == Get(MembersOf(doc), k)
  {
    var m := MembersOf(doc);
    if |keys| == 1 {
      GetPutOther(m, keys[0], v, k);
    } else {
      GetPutOther(m, keys[0], SetPath(Get(m, keys[0]).GetOr(Null), keys[1..], v), k);
    }
  }

  /**
   * Every path that leaves the key path at some level (a sibling at an intermediate level, or
   * any other top-level key) reads the same value before and after.
   */
  lemma {:induction false} SetPathSibling(doc: Json, keys: seq<string>, v: Json, p: seq<string>, j: nat)
    requires |keys| >= 1 && j < |p| && j < |keys|
    requires p[..j] == keys[..j] && p[j] != keys[j]
    ensures Navigate(SetPath(doc, keys, v), p) == Navigate(doc, p)
    decreases j
  {
    if j == 0 {
      SetPathOtherTop(doc, keys, v, p[0]);
    } else {
      CommonPrefixTail(p, keys, j);
      assert p[1..][j - 1] == p[j] && keys[1..][j - 1] == keys[j];
      var child := Get(MembersOf(doc), keys[0]).GetOr(Null);
      SetPathSibling(child, keys[1..], v, p[1..], j - 1);
      SetPathDescend(doc, keys, v, p);
    }
  }

  /** Below the first key, reading the new document reads the rebuilt child. */
  lemma SetPathDescend(doc: Json, keys: seq<string>, v: Json, p: seq<string>)
    requires |keys| >= 2 && |p| >= 2 && p[0] == keys[0]
    ensures var child := Get(MembersOf(doc), keys[0]).GetOr(Null);
      Navigate(SetPath(doc, keys, v), p) == Navigate(SetPath(child, keys[1..], v), p[1..])
      && Navigate(doc, p) == Navigate(child, p[1..])
  {
    var m := MembersOf(doc);
    var child := Get(m, keys[0]).GetOr(Null);
    var newChild := SetPath(child, keys[1..], v);
    GetPutSame(m, keys[0], newChild);
    NavigateVia(doc, p, child);
  }

  lemma CommonPrefixTail<T>(p: seq<T>, q: seq<T>, j: nat)
    requires 1 <= j <= |p| && j <= |q| && p[..j] == q[..j]
    ensures p[0] == q[0] && p[1..][..j - 1] == q[1..][..j - 1]
  {
    assert p[..j][0] == q[..j][0];
    assert p[1..][..j - 1] == p[..j][1..] && q[1..][..j - 1] == q[..j][1..];
  }

  /** Reading below the first key reads below the value a spread would find there (or `null`). */
  lemma NavigateVia(doc: Json, p: seq<string>, child: Json)
    requires |p| >= 2 && child == Get(MembersOf(doc), p[0]).GetOr(Null)
    ensures Navigate(doc, p) == Navigate(child, p[1..])
  {
    if Field(doc, p[0]).None? {
      assert Navigate(Null, p[1..]) == None;
    }
  }

  /** New intermediate levels are fresh objects holding only the next key. */
  function Nest(keys: seq<string>, v: Json): Json
    requires |keys| >= 1
    decreases |keys|
  {
    if |keys| == 1 then Object([(keys[0], v)]) else Object([(keys[0], Nest(keys[1..], v))])
  }

  /** Setting a path in `{}` (or in a missing document read as `{}`): `{mcp: {servers: m}}`. */
  lemma {:induction false} SetPathEmpty(keys: seq<string>, v: Json)
    requires |keys| >= 1
    ensures SetPath(Object([]), keys, v) == Nest(keys, v)
    decreases |keys|
  {
    if |keys| > 1 {
      SetPathEmpty(keys[1..], v);
      assert SetPath(Null, keys[1..], v) == SetPath(Object([]), keys[1..], v) by {
        SetPathMembersOnly(Null, keys[1..], v);
      }
    }
  }

  /** `SetPath` looks at a document only through the members a spread copies out of it. */
  lemma SetPathMembersOnly(doc: Json, keys: seq<string>, v: Json)
    requires |keys| >= 1
    ensures SetPath(doc, keys, v) == SetPath(Object(MembersOf(doc)), keys, v)
  {
  }

  /** Writing twice to the same path is writing once: a second save overwrites the first. */
  lemma {:induction false} SetPathTwice(doc: Json, keys: seq<string>, v: Json, w: Json)
    requires |keys| >= 1
    ensures SetPath(SetPath(doc, keys, v), keys, w) == SetPath(doc, keys, w)
    decreases |keys|
  {
    var m := MembersOf(doc);
    if |keys| == 1 {
      PutPut(m, keys[0], v, w);
    } else {
      var child := Get(m, keys[0]).GetOr(Null);
      var c1 := SetPath(child, keys[1..], v);
      GetPutSame(m, keys[0], c1);
      SetPathTwice(child, keys[1..], v, w);
      PutPut(m, keys[0], c1, SetPath(child, keys[1..], w));
    }
  }

  /** The members at level `i` of the key path, as the cursor of `buildFullConfig` finds them. */
  function Descend(doc: Json, keys: seq<string>, i: nat): Members
    requires i < |keys|
  {
    if i == 0 then MembersOf(doc)
    else MembersOf(Get(Descend(doc, keys, i - 1), keys[i - 1]).GetOr(Null))
  }

  /** The copies of the first `i` levels, outermost first. */
  function Levels(doc: Json, keys: seq<string>, i: nat): (ls: seq<Members>)
    requires i < |keys|
    ensures |ls| == i
  {
    if i == 0 then [] else Levels(doc, keys, i - 1) + [Descend(doc, keys, i - 1)]
  }

  lemma {:induction false} LevelsAt(doc: Json, keys: seq<string>, i: nat, j: nat)
    requires j < i < |keys|
    ensures Levels(doc, keys, i)[j] == Descend(doc, keys, j)
  {
    var prev := Levels(doc, keys, i - 1);
    assert Levels(doc, keys, i) == prev + [Descend(doc, keys, i - 1)];
    SnocIndex(prev, Descend(doc, keys, i - 1), j);
    if j < i - 1 {
      LevelsAt(doc, keys, i - 1, j);
    }
  }

  lemma LevelsAll(doc: Json, keys: seq<string>, i: nat)
    requires i < |keys|
    ensures forall j {:trigger Levels(doc, keys, i)[j]} :: 0 <= j < i ==> Levels(doc, keys, i)[j] == Descend(doc, keys, j)
  {
    forall j | 0 <= j < i
      ensures Levels(doc, keys, i)[j] == Descend(doc, keys, j)
    {
      LevelsAt(doc, keys, i, j);
    }
  }

  /** One level of the rebuild: level `i` is its copy with key `i` set to the rebuilt level below. */
  lemma SetPathLevel(doc: Json, keys: seq<string>, v: Json, i: nat)
    requires i < |keys| - 1
    ensures SetPath(Object(Descend(doc, keys, i)), keys[i..], v)
         == Object(Put(Descend(doc, keys, i), keys[i], SetPath(Object(Descend(doc, keys, i + 1)), keys[i + 1..], v)))
  {
    var d := Descend(doc, keys, i);
    var child := Get(d, keys[i]).GetOr(Null);
    assert keys[i..][1..] == keys[i + 1..];
    SetPathMembersOnly(child, keys[i + 1..], v);
  }

  /**
   * `buildFullConfig`: the document with the tool's servers object at its key path.  For a
   * dotted key the cursor walks down copying each level, then the levels are put back
   * together from the innermost one out.
   */
  method BuildFullConfig(existingConfig: Json, servers: Members, tool: Tool) returns (result: Json)
    ensures result == SetPath(existingConfig, KeyPath(tool), Object(servers))
  {
    var serverKey := ServerKey(tool);
    var v := Object(servers);
    if '.' in serverKey {
      var keys := Split(serverKey, '.');
      var levels, current := WalkDown(existingConfig, keys);
      LevelsAll(existingConfig, keys, |keys| - 1);
      result := Rebuild(existingConfig, keys, levels, current, v);
      SetPathMembersOnly(existingConfig, keys, v);
    } else {
      result := Object(Put(MembersOf(existingConfig), serverKey, v));
    }
  }

  /** The cursor's walk down a dotted key path: a copy of every level above the last key. */
  method WalkDown(existingConfig: Json, keys: seq<string>) returns (levels: seq<Members>, current: Members)
    requires |keys| >= 1
    ensures levels == Levels(existingConfig, keys, |keys| - 1)
    ensures current == Descend(existingConfig, keys, |keys| - 1)
  {
    var n := |keys|;
    levels := [];
    current := MembersOf(existingConfig);
    var i := 0;
    while i < n - 1
      invariant 0 <= i <= n - 1
      invariant levels == Levels(existingConfig, keys, i)
      invariant current == Descend(existingConfig, keys, i)
    {
      levels := levels + [current];
      current := MembersOf(Get(current, keys[i]).GetOr(Null));
      i := i + 1;
    }
  }

  /** The levels put back together from the innermost one out, the last key set to `v`. */
  method Rebuild(existingConfig: Json, keys: seq<string>, levels: seq<Members>, current: Members, v: Json)
    returns (result: Json)
    requires |keys| >= 1 && |levels| == |keys| - 1
    requires forall j {:trigger levels[j]} :: 0 <= j < |levels| ==> levels[j] == Descend(existingConfig, keys, j)
    requires current == Descend(existingConfig, keys, |keys| - 1)
    ensures result == SetPath(Object(MembersOf(existingConfig)), keys, v)
  {
    var n := |keys|;
    var i := n - 1;
    result := Object(Put(current, keys[n - 1], v));
    assert keys[n - 1..] == [keys[n - 1]];
    while i > 0
      invariant 0 <= i <= n - 1
      invariant result == SetPath(Object(Descend(existingConfig, keys, i)), keys[i..], v)
    {
      i := i - 1;
      SetPathLevel(existingConfig, keys, v, i);
      result := Object(Put(levels[i], keys[i], result));
    }
    assert keys[0..] == keys;
  }

  // ---------------------------------------------------------------------------------------
  // Decoding: a tool document back to server records.

  /**
   * The record `toolConfigToServers` makes of the entry `e` found under `name`.  A field of
   * the wrong JSON type reads as absent, and an absent `command` stays absent.
   */
  function DecodeEntry(name: string, e: Json, tool: Tool, id: string): (r: McpServer)
    ensures r.name == name && r.id == id && r.enabledTools == Some([tool.id])
    ensures r.transportType.Some? && (r.transportType.value == Http <==> r.url.Some? && r.url.value != "")
    ensures r.toolSettings.Some? <==> tool.id == ROO_CLINE
    ensures r.createdAt.None? && r.updatedAt.None?
  {
    var url := StringField(e, "url");
    McpServer(
      id,
      name,
      StringField(e, "command"),
      StringsField(e, "args").GetOr([]),
      StringRecordField(e, "env"),
      StringField(e, "cwd"),
      Some(if url.Some? && url.value != "" then Http else Stdio),
      url,
      if tool.id == ROO_CLINE then
        Some(ToolSettings(Some(RooCline(StringsField(e, "alwaysAllow"), StringsField(e, "autoApprove"), BoolField(e, "disabled")))))
      else None,
      Some([tool.id]),
      None,
      None)
  }

  /**
   * The values `f` makes of the members of an object, in member order, `f` also getting the
   * member's position; `None` when some member is `null`.
   */
  function MapMembers<T>(m: Members, f: (string, Json, nat) -> T): (r: Option<seq<T>>)
    ensures r.Some? <==> forall i :: 0 <= i < |m| ==> !m[i].1.Null?
    ensures r.Some? ==> |r.value| == |m|
    ensures r.Some? ==> forall i :: 0 <= i < |m| ==> r.value[i] == f(m[i].0, m[i].1, i)
  {
    if m == [] then Some([])
    else
      var p := m[..|m| - 1];
      var last := m[|m| - 1];
      assert forall i :: 0 <= i < |p| ==> p[i] == m[i];
      match MapMembers(p, f)
      case None => None
      case Some(ss) =>
        if last.1.Null? then None else Some(ss + [f(last.0, last.1, |m| - 1)])
  }

  /**
   * The records for the members of a servers object, in member order, the `i`-th taking the
   * id `ids(i)`; `None` when some entry is `null` (reading `.command` of `null` throws).
   */
  function DecodeMembers(m: Members, tool: Tool, ids: nat -> string): Option<seq<McpServer>>
  {
    MapMembers(m, (name, e, i) => DecodeEntry(name, e, tool, ids(i)))
  }

  /** Only a single-segment key on a `null` document throws (`null[serverKey]`). */
  predicate DecodeThrows(doc: Json, tool: Tool)
  {
    '.' !in ServerKey(tool) && doc.Null?
  }

  /**
   * `toolConfigToServers`: `None` when it throws; no records when the servers object is
   * missing or is not an object.
   */
  function Decode(doc: Json, tool: Tool, ids: nat -> string): (r: Option<seq<McpServer>>)
    ensures DecodeThrows(doc, tool) ==> r.None?
    ensures !DecodeThrows(doc, tool) && (Navigate(doc, KeyPath(tool)).None? || !Navigate(doc, KeyPath(tool)).value.Object?)
      ==> r == Some([])
    ensures !DecodeThrows(doc, tool) && Navigate(doc, KeyPath(tool)).Some? && Navigate(doc, KeyPath(tool)).value.Object?
      ==> r == DecodeMembers(Navigate(doc, KeyPath(tool)).value.members, tool, ids)
  {
    if DecodeThrows(doc, tool) then None
    else match Navigate(doc, KeyPath(tool))
      case Some(Object(m)) => DecodeMembers(m, tool, ids)
      case _ => Some([])
  }

  /** One more segment: the walk of `toolConfigToServers` extended by one key. */
  lemma {:induction false} NavigateSnoc(doc: Json, keys: seq<string>, k: string)
    ensures Navigate(doc, keys + [k]) == match Navigate(doc, keys) { case None => None case Some(c) => Field(c, k) }
    decreases |keys|
  {
    if keys == [] {
      assert [] + [k] == [k];
    } else {
      assert (keys + [k])[1..] == keys[1..] + [k];
      match Field(doc, keys[0])
      case None =>
      case Some(c) => NavigateSnoc(c, keys[1..], k);
    }
  }

  /** The value `toolConfigToServers` finds at the tool's key, or `None` when it is missing. */
  function ServersObject(doc: Json, tool: Tool): Option<Json>
  {
    Navigate(doc, KeyPath(tool))
  }

  /** `toolConfigToServers`: walk to the servers object, then push one record per entry. */
  method ToolConfigToServers(config: Json, tool: Tool, ids: nat -> string) returns (servers: Option<seq<McpServer>>)
    ensures servers == Decode(config, tool, ids)
  {
    var serverKey := ServerKey(tool);
    var serversObj: Option<Json>;
    if '.' in serverKey {
      serversObj := WalkKeys(config, Split(serverKey, '.'));
    } else if config.Null? {
      return None;
    } else {
      serversObj := Field(config, serverKey);
      assert serversObj == Navigate(config, [serverKey]);
    }
    if serversObj.None? || !serversObj.value.Object? {
      return Some([]);
    }
    servers := PushEntries(serversObj.value.members, tool, ids);
  }

  /** The loop over the key segments, stopping at the first one that is not there. */
  method WalkKeys(config: Json, keys: seq<string>) returns (current: Option<Json>)
    ensures current == Navigate(config, keys)
  {
    current := Some(config);
    var i := 0;
    while i < |keys|
      invariant 0 <= i <= |keys|
      invariant current == Navigate(config, keys[..i])
      invariant current.Some?
    {
      NavigateSnoc(config, keys[..i], keys[i]);
      assert keys[..i + 1] == keys[..i] + [keys[i]];
      var next := Field(current.value, keys[i]);
      if next.None? {
        NavigateNoneStays(config, keys, i + 1);
        return None;
      }
      current := next;
      i := i + 1;
    }
    assert keys[..i] == keys;
  }

  /** The loop over the entries of the servers object. */
  method PushEntries(m: Members, tool: Tool, ids: nat -> string) returns (servers: Option<seq<McpServer>>)
    ensures servers == DecodeMembers(m, tool, ids)
  {
    var result: seq<McpServer> := [];
    var j := 0;
    while j < |m|
      invariant 0 <= j <= |m|
      invariant DecodeMembers(m[..j], tool, ids) == Some(result)
    {
      assert m[..j + 1][..j] == m[..j];
      var (name, serverConfig) := m[j];
      if serverConfig.Null? {
        return None;
      }
      result := result + [DecodeEntry(name, serverConfig, tool, ids(j))];
      j := j + 1;
    }
    assert m[..j] == m;
    servers := Some(result);
  }

  /** A walk that has failed stays failed. */
  lemma {:induction false} NavigateNoneStays(doc: Json, keys: seq<string>, i: nat)
    requires i <= |keys| && Navigate(doc, keys[..i]).None?
    ensures Navigate(doc, keys).None?
    decreases |keys| - i
  {
    if i < |keys| {
      NavigateSnoc(doc, keys[..i], keys[i]);
      assert keys[..i + 1] == keys[..i] + [keys[i]];
      NavigateNoneStays(doc, keys, i + 1);
    } else {
      assert keys[..i] == keys;
    }
  }

  /** Reading back the document `buildFullConfig` made reads exactly the object it put there. */
  lemma DecodeSetPath(doc: Json, m: Members, tool: Tool, ids: nat -> string)
    ensures Decode(SetPath(doc, KeyPath(tool), Object(m)), tool, ids) == DecodeMembers(m, tool, ids)
  {
    var d := SetPath(doc, KeyPath(tool), Object(m));
    NavigateSetPath(doc, KeyPath(tool), Object(m));
    assert !DecodeThrows(d, tool);
  }

  /**
   * The round trip of a tool file: decoding the document `buildFullConfig` made from the
   * object `m` gives one record per member of `m`, in order, named by its key, with `command`
   * and `args` read from its entry.
   */
  lemma DecodeBuild(doc: Json, m: Members, tool: Tool, ids: nat -> string)
    requires forall i :: 0 <= i < |m| ==> m[i].1.Object?
    ensures var r := Decode(SetPath(doc, KeyPath(tool), Object(m)), tool, ids);
      r.Some? && |r.value| == |m|
      && forall i :: 0 <= i < |m| ==>
        r.value[i].name == m[i].0
        && r.value[i].command == StringField(m[i].1, "command")
        && r.value[i].args == StringsField(m[i].1, "args").GetOr([])
        && r.value[i].enabledTools == Some([tool.id])
  {
    DecodeSetPath(doc, m, tool, ids);
    var r := DecodeMembers(m, tool, ids);
    forall i | 0 <= i < |m|
      ensures r.value[i] == DecodeEntry(m[i].0, m[i].1, tool, ids(i))
    {
    }
  }

  /**
   * What survives writing one server to a tool and reading it back: everything the entry
   * carries, with the empty `env` and `cwd` dropped and the URL kept only for HTTP servers.
   */
  lemma DecodeEncodeEntry(s: McpServer, tool: Tool, id: string)
    ensures var d := DecodeEntry(s.name, EncodeEntry(s, tool.id), tool, id);
      d.name == s.name && d.command == s.command && d.args == s.args
      && d.env == (if HasEnv(s) then s.env else None)
      && d.cwd == (if HasCwd(s) then s.cwd else None)
      && d.url == (if HasUrl(s) then s.url else None)
      && d.transportType == Some(if HasUrl(s) then Http else Stdio)
  {
    EncodeEntryFields(s, tool.id);
  }

  /**
   * The other direction for the command: an entry read from a tool file and written back has a
   * `command` exactly when the entry had a string `command`, and then the same one.
   */
  lemma EncodeDecodeCommand(name: string, e: Json, tool: Tool, id: string)
    ensures Field(EncodeEntry(DecodeEntry(name, e, tool, id), tool.id), "command")
      == if StringField(e, "command").Some? then Some(String(StringField(e, "command").value)) else None
  {
    EncodeEntryFields(DecodeEntry(name, e, tool, id), tool.id);
  }

  /** The Roo Cline flags survive the round trip for the tool `roo-cline`, and only there. */
  lemma DecodeEncodeEntryRoo(s: McpServer, tool: Tool, id: string)
    ensures var d := DecodeEntry(s.name, EncodeEntry(s, tool.id), tool, id);
      d.toolSettings == (if tool.id == ROO_CLINE then Some(ToolSettings(Some(RooOf(s)))) else None)
  {
    EncodeEntryRooFields(s, tool.id);
  }

  /**
   * The whole round trip: servers with distinct names, all enabled for the tool, written by
   * `serversToToolConfig` and `buildFullConfig` into any document, read back as one record
   * each, in order, as `DecodeEncodeEntry` describes.
   */
  lemma DecodeEncodeAll(doc: Json, ss: seq<McpServer>, tool: Tool, ids: nat -> string)
    requires forall i :: 0 <= i < |ss| ==> Included(ss[i], tool.id)
    requires forall i, j :: 0 <= i < j < |ss| ==> ss[i].name != ss[j].name
    ensures var r := Decode(SetPath(doc, KeyPath(tool), Object(EncodeAll(ss, tool.id))), tool, ids);
      r.Some? && |r.value| == |ss|
      && forall i :: 0 <= i < |ss| ==> r.value[i] == DecodeEntry(ss[i].name, EncodeEntry(ss[i], tool.id), tool, ids(i))
  {
    var m := EncodeAll(ss, tool.id);
    EncodeAllDistinct(ss, tool.id);
    DecodeSetPath(doc, m, tool, ids);
    assert forall i :: 0 <= i < |m| ==> !m[i].1.Null?;
  }

  // ---------------------------------------------------------------------------------------
  // Merging an imported list into the canonical one (`mergeServers`).

  /** The names of a server list, in order. */
  function Names(ss: seq<McpServer>): (ns: seq<string>)
    ensures |ns| == |ss|
    ensures forall i :: 0 <= i < |ss| ==> ns[i] == ss[i].name
  {
    if ss == [] then [] else Names(ss[..|ss| - 1]) + [ss[|ss| - 1].name]
  }

  predicate UniqueNames(ss: seq<McpServer>)
  {
    forall i, j :: 0 <= i < j < |ss| ==> ss[i].name != ss[j].name
  }

  /** `result.findIndex(s => s.name === name)`: the first server with that name, or -1. */
  function FindByName(ss: seq<McpServer>, name: string): (i: int)
    ensures -1 <= i < |ss|
    ensures i >= 0 ==> ss[i].name == name && forall j :: 0 <= j < i ==> ss[j].name != name
    ensures i < 0 ==> forall j :: 0 <= j < |ss| ==> ss[j].name != name
  {
    if ss == [] then -1
    else if ss[0].name == name then 0
    else
      var k := FindByName(ss[1..], name);
      assert forall j :: 1 <= j < |ss| ==> ss[1..][j - 1] == ss[j];
      if k < 0 then -1 else k + 1
  }

  /** `enabledTools || []`. */
  function ToolsOf(s: McpServer): seq<string>
  {
    s.enabledTools.GetOr([])
  }

  /** Two records that differ at most in `enabledTools`. */
  predicate SameButTools(a: McpServer, b: McpServer)
  {
    a.(enabledTools := b.enabledTools) == b
  }

  /** `{...existingServer, enabledTools: Array.from(new Set([...existing, ...imported]))}`. */
  function MergeTools(existing: McpServer, imported: McpServer): (m: McpServer)
    ensures SameButTools(m, existing)
    ensures m.enabledTools.Some?
    ensures forall t :: t in ToolsOf(m) <==> t in ToolsOf(existing) || t in ToolsOf(imported)
  {
    existing.(enabledTools := Some(Dedup(ToolsOf(existing) + ToolsOf(imported))))
  }

  /** One iteration of `mergeServers`: merge into the first namesake, or append. */
  function MergeOne(result: seq<McpServer>, imported: McpServer): (r: seq<McpServer>)
    ensures |r| == if FindByName(result, imported.name) >= 0 then |result| else |result| + 1
  {
    var i := FindByName(result, imported.name);
    if i >= 0 then result[i := MergeTools(result[i], imported)] else result + [imported]
  }

  /** The list `mergeServers` has built after the imported servers `imported`. */
  function MergeAll(existing: seq<McpServer>, imported: seq<McpServer>): (r: seq<McpServer>)
    ensures |existing| <= |r| <= |existing| + |imported|
  {
    if imported == [] then existing
    else MergeOne(MergeAll(existing, imported[..|imported| - 1]), imported[|imported| - 1])
  }

  /** `mergeServers`. */
  method MergeServers(existing: seq<McpServer>, imported: seq<McpServer>) returns (result: seq<McpServer>)
    ensures result == MergeAll(existing, imported)
  {
    result := existing;
    var k := 0;
    while k < |imported|
      invariant 0 <= k <= |imported|
      invariant result == MergeAll(existing, imported[..k])
    {
      var importedServer := imported[k];
      assert imported[..k + 1][..k] == imported[..k];
      var existingIndex := FindByName(result, importedServer.name);
      if existingIndex >= 0 {
        var existingServer := result[existingIndex];
        var mergedTools := Dedup(ToolsOf(existingServer) + ToolsOf(importedServer));
        result := result[existingIndex := existingServer.(enabledTools := Some(mergedTools))];
      } else {
        result := result + [importedServer];
      }
      k := k + 1;
    }
    assert imported[..k] == imported;
  }

  /** A merge step keeps the names where they were, adding the imported name only when it is new. */
  lemma MergeOneNames(result: seq<McpServer>, imported: McpServer)
    ensures Names(MergeOne(result, imported))
      == if FindByName(result, imported.name) >= 0 then Names(result) else Names(result) + [imported.name]
  {
  }

  /** Existing servers keep their position and every field but `enabledTools`. */
  lemma {:induction false} MergeAllKeeps(existing: seq<McpServer>, imported: seq<McpServer>)
    ensures forall i :: 0 <= i < |existing| ==> SameButTools(MergeAll(existing, imported)[i], existing[i])
  {
    if imported != [] {
      MergeAllKeeps(existing, imported[..|imported| - 1]);
    }
  }

  /** The merged names are the existing names and the imported names, nothing else. */
  lemma {:induction false} MergeAllNames(existing: seq<McpServer>, imported: seq<McpServer>)
    ensures forall n :: n in Names(MergeAll(existing, imported)) <==> n in Names(existing) || n in Names(imported)
  {
    if imported != [] {
      var p := imported[..|imported| - 1];
      var x := imported[|imported| - 1];
      MergeAllNames(existing, p);
      MergeOneNames(MergeAll(existing, p), x);
      assert Names(imported) == Names(p) + [x.name];
    }
  }

  /** A list with unique names stays so: a clash merges, a new name is appended once. */
  lemma {:induction false} MergeAllUnique(existing: seq<McpServer>, imported: seq<McpServer>)
    requires UniqueNames(existing)
    ensures UniqueNames(MergeAll(existing, imported))
  {
    if imported != [] {
      var p := imported[..|imported| - 1];
      var x := imported[|imported| - 1];
      MergeAllUnique(existing, p);
      var r := MergeAll(existing, p);
      MergeOneNames(r, x);
      var r' := MergeOne(r, x);
      forall i, j | 0 <= i < j < |r'| ensures r'[i].name != r'[j].name {
        assert Names(r')[i] == r'[i].name && Names(r')[j] == r'[j].name;
      }
    }
  }

  /** Imported servers whose names are new and distinct are appended, in order, unchanged. */
  lemma {:induction false} MergeAllFresh(existing: seq<McpServer>, imported: seq<McpServer>)
    requires UniqueNames(imported)
    requires forall i, j :: 0 <= i < |imported| && 0 <= j < |existing| ==> imported[i].name != existing[j].name
    ensures MergeAll(existing, imported) == existing + imported
  {
    if imported != [] {
      var p := imported[..|imported| - 1];
      var x := imported[|imported| - 1];
      assert forall i :: 0 <= i < |p| ==> p[i] == imported[i];
      MergeAllFresh(existing, p);
      assert FindByName(existing + p, x.name) < 0 by {
        forall j | 0 <= j < |existing + p| ensures (existing + p)[j].name != x.name {
          if j >= |existing| { assert (existing + p)[j] == imported[j - |existing|]; }
        }
      }
      assert existing + p + [x] == existing + imported;
    }
  }

  /** The first existing server named `existing[i].name` is the one every namesake merges into. */
  lemma MergeAllFind(existing: seq<McpServer>, imported: seq<McpServer>, i: nat)
    requires i < |existing|
    requires forall k :: 0 <= k < i ==> existing[k].name != existing[i].name
    ensures FindByName(MergeAll(existing, imported), existing[i].name) == i
  {
    MergeAllKeeps(existing, imported);
    var r := MergeAll(existing, imported);
    assert r[i].name == existing[i].name;
    assert forall k :: 0 <= k < i ==> r[k].name == existing[k].name;
  }

  /**
   * On a name clash the existing server's tool list becomes the union of its own and every
   * namesake's tools; with no namesake among the imported servers it is left as it was.
   */
  lemma {:induction false} MergeAllTools(existing: seq<McpServer>, imported: seq<McpServer>, i: nat)
    requires i < |existing|
    requires forall k :: 0 <= k < i ==> existing[k].name != existing[i].name
    ensures forall t :: t in ToolsOf(MergeAll(existing, imported)[i]) <==>
      (t in ToolsOf(existing[i]) || exists j :: 0 <= j < |imported| && imported[j].name == existing[i].name && t in ToolsOf(imported[j]))
    ensures (forall j :: 0 <= j < |imported| ==> imported[j].name != existing[i].name) ==>
      MergeAll(existing, imported)[i] == existing[i]
  {
    MergeAllKeeps(existing, imported);
    if imported != [] {
      var p := imported[..|imported| - 1];
      var x := imported[|imported| - 1];
      assert forall j :: 0 <= j < |p| ==> p[j] == imported[j];
      MergeAllTools(existing, p, i);
      MergeAllKeeps(existing, p);
      MergeAllFind(existing, p, i);
    }
  }

  /** Existing ids come first: a duplicate-free tool list is a prefix of its merged list. */
  lemma {:induction false} MergeAllToolsPrefix(existing: seq<McpServer>, imported: seq<McpServer>, i: nat)
    requires i < |existing|
    requires forall k :: 0 <= k < i ==> existing[k].name != existing[i].name
    requires NoDup(ToolsOf(existing[i]))
    ensures var ts := ToolsOf(MergeAll(existing, imported)[i]);
      NoDup(ts) && |ToolsOf(existing[i])| <= |ts| && ts[..|ToolsOf(existing[i])|] == ToolsOf(existing[i])
  {
    MergeAllKeeps(existing, imported);
    if imported != [] {
      var p := imported[..|imported| - 1];
      var x := imported[|imported| - 1];
      MergeAllToolsPrefix(existing, p, i);
      MergeAllKeeps(existing, p);
      MergeAllFind(existing, p, i);
      var r := MergeAll(existing, p);
      if x.name == existing[i].name {
        var a := ToolsOf(r[i]);
        DedupConcat(a, ToolsOf(x));
        DedupNoDup(a);
        var e := ToolsOf(existing[i]);
        assert a[..|e|] == e;
        var ts := Dedup(a + ToolsOf(x));
        assert ts[..|a|] == a;
        assert ts[..|e|] == a[..|e|];
      }
    }
  }

  // ---------------------------------------------------------------------------------------
  // Validating a server update (`validateServerConfig`).

  /** The validator's four messages; `Text` is the wording the source pushes. */
  datatype ValidationError = NameRequired | CommandRequired | UrlRequired | NameInvalid
  {
    function Text(): string
    {
      match this
      case NameRequired => "Server name is required"
      case CommandRequired => "Command is required"
      case UrlRequired => "URL is required for HTTP transport"
      case NameInvalid => "Server name contains invalid characters"
    }

    /** The position of the rule in the validator. */
    function Rank(): nat
    {
      match this
      case NameRequired => 0
      case CommandRequired => 1
      case UrlRequired => 2
      case NameInvalid => 3
    }
  }

  /** Distinct messages have distinct wording, so the list of texts determines the list of messages. */
  lemma TextInjective(e: ValidationError, f: ValidationError)
    requires e.Text() == f.Text()
    ensures e == f
  {
    assert |e.Text()| == |f.Text()|;
  }

  /** A string property that is absent, empty or only white space (`!v || v.trim() === ''`). */
  predicate Missing(v: Patch<string>)
  {
    v.Keep? || IsBlank(v.value)
  }

  predicate NameMissing(p: ServerPatch) { Missing(p.name) }
  predicate CommandMissing(p: ServerPatch)
  {
    p.command.Keep? || p.command.value.None? || IsBlank(p.command.value.value)
  }

  /** An HTTP server without a URL that has something other than white space in it. */
  predicate UrlMissing(p: ServerPatch)
  {
    p.transportType == Set(Some(Http)) && (p.url.Keep? || p.url.value.None? || IsBlank(p.url.value.value))
  }

  /** A non-empty name outside `^[\w\-. ]+$`. */
  predicate NameBad(p: ServerPatch)
  {
    p.name.Set? && p.name.value != "" && !ServerSchema.NameChars(p.name.value)
  }

  /** The update the validator accepts, stated positively. */
  predicate ValidServer(p: ServerPatch)
  {
    p.name.Set? && !IsBlank(p.name.value) && ServerSchema.NameChars(p.name.value)
    && p.command.Set? && p.command.value.Some? && !IsBlank(p.command.value.value)
    && (p.transportType == Set(Some(Http)) ==> p.url.Set? && p.url.value.Some? && !IsBlank(p.url.value.value))
  }

  /** `s.trim() === ''`. */
  function TrimsToEmpty(s: string): (b: bool)
    ensures b <==> IsBlank(s)
  {
    TrimEmptyIffBlank(s);
    Trim(s) == ""
  }

  /** Messages in strictly increasing rule order. */
  predicate Ranked(errors: seq<ValidationError>)
  {
    forall i, j :: 0 <= i < j < |errors| ==> errors[i].Rank() < errors[j].Rank()
  }

  /** The messages for the rules that failed, in rule order. */
  function Report(name: bool, command: bool, url: bool, chars: bool): seq<ValidationError>
  {
    PushIf(PushIf(PushIf(PushIf([], name, NameRequired), command, CommandRequired), url, UrlRequired), chars, NameInvalid)
  }

  /** `if (failed) errors.push(e)`. */
  function PushIf(errors: seq<ValidationError>, failed: bool, e: ValidationError): seq<ValidationError>
  {
    if failed then errors + [e] else errors
  }

  /** Each message is reported exactly when its rule fails, once, in rule order. */
  lemma ReportMessages(name: bool, command: bool, url: bool, chars: bool)
    ensures var r := Report(name, command, url, chars);
      (NameRequired in r <==> name) && (CommandRequired in r <==> command)
      && (UrlRequired in r <==> url) && (NameInvalid in r <==> chars)
      && Ranked(r) && (r == [] <==> !name && !command && !url && !chars)
  {
    var r1 := PushIf([], name, NameRequired);
    var r2 := PushIf(r1, command, CommandRequired);
    var r3 := PushIf(r2, url, UrlRequired);
    PushIfRanked([], name, NameRequired);
    PushIfRanked(r1, command, CommandRequired);
    PushIfRanked(r2, url, UrlRequired);
    PushIfRanked(r3, chars, NameInvalid);
  }

  /** A pushed message of a later rule keeps the list in rule order. */
  lemma PushIfRanked(errors: seq<ValidationError>, failed: bool, e: ValidationError)
    requires Ranked(errors) && forall x :: x in errors ==> x.Rank() < e.Rank()
    ensures Ranked(PushIf(errors, failed, e))
    ensures forall x :: x in PushIf(errors, failed, e) <==> x in errors || (failed && x == e)
  {
  }

  /** `validateServerConfig`: one message per failed rule, in rule order. */
  method ValidateServerConfig(server: ServerPatch) returns (errors: seq<ValidationError>)
    ensures NameRequired in errors <==> NameMissing(server)
    ensures CommandRequired in errors <==> CommandMissing(server)
    ensures UrlRequired in errors <==> UrlMissing(server)
    ensures NameInvalid in errors <==> NameBad(server)
    ensures Ranked(errors)
    ensures errors == [] <==> ValidServer(server)
  {
    var nameMissing := server.name.Keep? || TrimsToEmpty(server.name.value);
    var commandMissing := server.command.Keep? || server.command.value.None? || TrimsToEmpty(server.command.value.value);
    var urlMissing := server.transportType == Set(Some(Http))
      && (server.url.Keep? || server.url.value.None? || TrimsToEmpty(server.url.value.value));
    var nameBad := server.name.Set? && server.name.value != "" && !ServerSchema.NameChars(server.name.value);
    assert ValidServer(server) <==> !nameMissing && !commandMissing && !urlMissing && !nameBad;
    errors := [];
    if nameMissing {
      errors := errors + [NameRequired];
    }
    ghost var e1 := errors;
    assert e1 == PushIf([], nameMissing, NameRequired);
    if commandMissing {
      errors := errors + [CommandRequired];
    }
    ghost var e2 := errors;
    assert e2 == PushIf(e1, commandMissing, CommandRequired);
    if urlMissing {
      errors := errors + [UrlRequired];
    }
    ghost var e3 := errors;
    assert e3 == PushIf(e2, urlMissing, UrlRequired);
    if nameBad {
      errors := errors + [NameInvalid];
    }
    assert errors == PushIf(e3, nameBad, NameInvalid);
    ReportMessages(nameMissing, commandMissing, urlMissing, nameBad);
  }

  /** A name holding a path separator never passes. */
  lemma SlashNameInvalid(p: ServerPatch, k: nat)
    requires p.name.Set? && k < |p.name.value| && p.name.value[k] == '/'
    ensures !ValidServer(p) && NameBad(p)
  {
  }
}
