/**
 * Keeping the tools' config files in step with the canonical server list (`useServers`).
 * Every write to a tool's file is the same sequence: an optional backup, a read, the encoding
 * of the servers meant for the tool, the rebuilt document, the write.  The operations use the
 * server list as it was when they started (the list the hook captured), even after they have
 * updated the store.
 */
module Servers {
  import opened Wrappers
  import opened Records
  import opened Json
  import opened Strings
  import opened Lists
  import opened Types
  import opened PathResolver
  import opened ConfigManager
  import opened ConfigIpc
  import opened AppState = Store

  // ---------------------------------------------------------------------------------------
  // Reading one tool.

  /**
   * `loadServersFromTool`: the records decoded from the tool's file; none when the file is
   * missing or empty, does not parse, or makes the decoder throw.
   */
  function ToolServers(fs: Files, tool: Tool, ids: nat -> string): seq<McpServer>
  {
    match Lookup(fs, tool.configPath)
    case Some(Doc(d)) => Decode(d, tool, ids).GetOr([])
    case _ => []
  }

  /** A file that is missing, empty or unparsable contributes no servers. */
  lemma ToolServersNoFile(fs: Files, tool: Tool, ids: nat -> string)
    requires Lookup(fs, tool.configPath).None? || !Lookup(fs, tool.configPath).value.Doc?
    ensures ToolServers(fs, tool, ids) == []
  {
  }

  // ---------------------------------------------------------------------------------------
  // Loading every installed tool (`loadAllServers`).

  /** `tools.filter(t => t.isInstalled)`. */
  function InstalledTools(tools: seq<Tool>): (r: seq<Tool>)
    ensures forall t :: t in r <==> t in tools && Installed(t)
  {
    Filter(tools, (t: Tool) => Installed(t))
  }

  /** The ids the `k`-th tool's records take. */
  function IdsOf(ids: (nat, nat) -> string, k: nat): nat -> string
  {
    (j: nat) => ids(k, j)
  }

  /** The records of the tools in turn; the `k`-th tool's records take the ids `ids(k, _)`. */
  function Loaded(fs: Files, tools: seq<Tool>, ids: (nat, nat) -> string): seq<McpServer>
  {
    if tools == [] then []
    else
      var k: nat := |tools| - 1;
      Loaded(fs, tools[..k], ids) + ToolServers(fs, tools[k], IdsOf(ids, k))
  }

  /**
   * One record joining the loaded list: a new name is appended; a known name only gains the
   * record's tools, appended to the first record's (duplicates kept).
   */
  function Absorb(acc: seq<McpServer>, s: McpServer): (r: seq<McpServer>)
    ensures |r| == if FindByName(acc, s.name) < 0 then |acc| + 1 else |acc|
  {
    var i := FindByName(acc, s.name);
    if i < 0 then acc + [s]
    else if s.enabledTools.Some? then acc[i := acc[i].(enabledTools := Some(ToolsOf(acc[i]) + s.enabledTools.value))]
    else acc
  }

  /** The list `loadAllServers` has built after the records `xs`. */
  function Gather(xs: seq<McpServer>): (r: seq<McpServer>)
    ensures |r| <= |xs|
  {
    if xs == [] then [] else Absorb(Gather(xs[..|xs| - 1]), xs[|xs| - 1])
  }

  /** One more tool's records extend the loaded list. */
  lemma LoadedNext(fs: Files, tools: seq<Tool>, ids: (nat, nat) -> string, k: nat)
    requires k < |tools|
    ensures Loaded(fs, tools[..k + 1], ids) == Loaded(fs, tools[..k], ids) + ToolServers(fs, tools[k], IdsOf(ids, k))
  {
    TakeNext(tools, k);
  }

  /** One more record joins the gathered list. */
  lemma GatherSnoc(xs: seq<McpServer>, x: McpServer)
    ensures Gather(xs + [x]) == Absorb(Gather(xs), x)
  {
    assert (xs + [x])[..|xs|] == xs;
  }

  /** Looking a name up in a list with one more record at the end. */
  lemma FindByNameSnoc(p: seq<McpServer>, x: McpServer, n: string)
    ensures FindByName(p + [x], n) == if FindByName(p, n) >= 0 then FindByName(p, n) else if x.name == n then |p| else -1
  {
    var xs := p + [x];
    var f := FindByName(p, n);
    var g := FindByName(xs, n);
    assert forall j :: 0 <= j < |p| ==> xs[j] == p[j];
    assert xs[|p|] == x;
    if f >= 0 {
      assert xs[f].name == n;
    } else if x.name == n {
      assert xs[|p|].name == n;
    }
  }

  /** Two lists with the same names at the same places find a name at the same place. */
  lemma FindByNameSameNames(a: seq<McpServer>, b: seq<McpServer>, n: string)
    requires |a| == |b| && forall j :: 0 <= j < |a| ==> a[j].name == b[j].name
    ensures FindByName(a, n) == FindByName(b, n)
  {
    var f := FindByName(a, n);
    var g := FindByName(b, n);
    if f >= 0 {
      assert b[f].name == n;
    }
    if g >= 0 {
      assert a[g].name == n;
    }
  }

  /** Absorbing a record adds its name to the names of the list, and no other. */
  lemma AbsorbNames(acc: seq<McpServer>, s: McpServer)
    ensures forall n :: FindByName(Absorb(acc, s), n) >= 0 <==> FindByName(acc, n) >= 0 || n == s.name
  {
    var i := FindByName(acc, s.name);
    forall n ensures FindByName(Absorb(acc, s), n) >= 0 <==> FindByName(acc, n) >= 0 || n == s.name {
      if i < 0 {
        FindByNameSnoc(acc, s, n);
      } else if s.enabledTools.Some? {
        FindByNameSameNames(Absorb(acc, s), acc, n);
      }
    }
  }

  /** The loaded list has one record per name, and exactly the names that were read. */
  lemma {:induction false} GatherNames(xs: seq<McpServer>)
    ensures UniqueNames(Gather(xs))
    ensures forall n :: FindByName(Gather(xs), n) >= 0 <==> FindByName(xs, n) >= 0
  {
    if xs != [] {
      var p := xs[..|xs| - 1];
      var x := xs[|xs| - 1];
      assert xs == p + [x];
      GatherNames(p);
      var g := Gather(p);
      var i := FindByName(g, x.name);
      forall n ensures FindByName(xs, n) >= 0 <==> FindByName(p, n) >= 0 || n == x.name {
        FindByNameSnoc(p, x, n);
      }
      if i < 0 {
        forall n ensures FindByName(g + [x], n) >= 0 <==> FindByName(g, n) >= 0 || n == x.name {
          FindByNameSnoc(g, x, n);
        }
      } else if x.enabledTools.Some? {
        forall n ensures FindByName(Gather(xs), n) == FindByName(g, n) {
          FindByNameSameNames(Gather(xs), g, n);
        }
      }
    }
  }

  /** The first record read under a name supplies every field but the tools. */
  lemma {:induction false} GatherFirstWins(xs: seq<McpServer>, i: nat)
    requires i < |Gather(xs)|
    ensures FindByName(xs, Gather(xs)[i].name) >= 0
    ensures SameButTools(Gather(xs)[i], xs[FindByName(xs, Gather(xs)[i].name)])
  {
    var p := xs[..|xs| - 1];
    var x := xs[|xs| - 1];
    assert xs == p + [x];
    var g := Gather(p);
    var k := FindByName(g, x.name);
    if i < |g| {
      GatherFirstWins(p, i);
      var n := g[i].name;
      assert Gather(xs)[i].name == n;
      FindByNameSnoc(p, x, n);
      assert xs[FindByName(p, n)] == p[FindByName(p, n)];
    } else {
      assert k < 0 && Gather(xs)[i] == x;
      GatherNames(p);
      FindByNameSnoc(p, x, x.name);
    }
  }

  /** The tools of the records named `n`, concatenated in reading order. */
  function ToolsNamed(xs: seq<McpServer>, n: string): seq<string>
  {
    if xs == [] then []
    else
      var x := xs[|xs| - 1];
      ToolsNamed(xs[..|xs| - 1], n) + (if x.name == n then ToolsOf(x) else [])
  }

  /** A name that was never read has no tools. */
  lemma {:induction false} NoNameNoTools(xs: seq<McpServer>, n: string)
    requires FindByName(xs, n) < 0
    ensures ToolsNamed(xs, n) == []
  {
    if xs != [] {
      var p := xs[..|xs| - 1];
      assert xs == p + [xs[|xs| - 1]];
      FindByNameSnoc(p, xs[|xs| - 1], n);
      NoNameNoTools(p, n);
    }
  }

  /** A loaded record's tools are those of every record read under its name, repeats included. */
  lemma {:induction false} GatherTools(xs: seq<McpServer>, i: nat)
    requires i < |Gather(xs)|
    ensures ToolsOf(Gather(xs)[i]) == ToolsNamed(xs, Gather(xs)[i].name)
  {
    var p := xs[..|xs| - 1];
    var x := xs[|xs| - 1];
    var g := Gather(p);
    var k := FindByName(g, x.name);
    GatherNames(p);
    if i < |g| {
      GatherTools(p, i);
      if x.name == g[i].name {
        assert k == i;
      } else {
        assert Gather(xs)[i] == g[i];
      }
    } else {
      assert k < 0 && Gather(xs)[i] == x;
      NoNameNoTools(p, x.name);
    }
  }

  /** The body of the inner loop of `loadAllServers`: a new name is appended, a known one gains the record's tools. */
  method AbsorbOne(merged: seq<McpServer>, seen: set<string>, server: McpServer)
    returns (merged': seq<McpServer>, seen': set<string>)
    requires forall n :: n in seen <==> FindByName(merged, n) >= 0
    ensures merged' == Absorb(merged, server)
    ensures forall n :: n in seen' <==> FindByName(merged', n) >= 0
  {
    merged', seen' := merged, seen;
    if server.name !in seen {
      seen' := seen + {server.name};
      merged' := merged + [server];
    } else {
      var existing := FindByName(merged, server.name);
      if server.enabledTools.Some? {
        merged' := merged[existing := merged[existing].(enabledTools := Some(ToolsOf(merged[existing]) + server.enabledTools.value))];
      }
    }
    AbsorbNames(merged, server);
  }

  /**
   * The inner loop of `loadAllServers`: each record of one tool joins the list built so far,
   * with `seenNames` holding the names already in it.
   */
  method AbsorbAll(allServers: seq<McpServer>, seenNames: set<string>, toolServers: seq<McpServer>,
                   ghost read: seq<McpServer>) returns (merged: seq<McpServer>, seen: set<string>)
    requires allServers == Gather(read)
    requires forall n :: n in seenNames <==> FindByName(allServers, n) >= 0
    ensures merged == Gather(read + toolServers)
    ensures forall n :: n in seen <==> FindByName(merged, n) >= 0
  {
    merged, seen := allServers, seenNames;
    var j := 0;
    assert read + toolServers[..0] == read;
    while j < |toolServers|
      invariant 0 <= j <= |toolServers|
      invariant merged == Gather(read + toolServers[..j])
      invariant forall n :: n in seen <==> FindByName(merged, n) >= 0
    {
      var server := toolServers[j];
      GatherSnoc(read + toolServers[..j], server);
      AppendTakeNext(read, toolServers, j);
      merged, seen := AbsorbOne(merged, seen, server);
      j := j + 1;
    }
    assert toolServers[..j] == toolServers;
  }

  // ---------------------------------------------------------------------------------------
  // Rewriting one tool's file.

  /** The file system after the backup `createBackup` makes when backups are enabled. */
  function AfterBackup(fs: Files, readOnly: set<string>, path: string, now: string, backup: bool): Files
  {
    if backup && Lookup(fs, path).Some? && Dirname(path) !in readOnly then WithBackup(fs, path, now) else fs
  }

  /** Making the backup leaves every file but the backups as it was; in particular the file itself. */
  lemma AfterBackupOthers(fs: Files, readOnly: set<string>, path: string, now: string, backup: bool, p: string)
    requires '/' !in now && '\\' !in now
    requires Dirname(p) != Dirname(path) || !StartsWith(Basename(p), BackupPrefix(Basename(path)))
    ensures Lookup(AfterBackup(fs, readOnly, path, now, backup), p) == Lookup(fs, p)
  {
    if backup && Lookup(fs, path).Some? && Dirname(path) !in readOnly {
      WithBackupOthers(fs, path, now, p);
    }
  }

  lemma BackupKeepsFile(fs: Files, readOnly: set<string>, path: string, now: string, backup: bool)
    requires '/' !in now && '\\' !in now
    ensures Lookup(AfterBackup(fs, readOnly, path, now, backup), path) == Lookup(fs, path)
  {
    var base := Basename(path);
    assert !StartsWith(base, BackupPrefix(base));
    AfterBackupOthers(fs, readOnly, path, now, backup, path);
  }

  /** The document a tool's file gets when `list` is written into `doc`. */
  function Rebuilt(doc: Json, list: seq<McpServer>, tool: Tool): Json
  {
    SetPath(doc, KeyPath(tool), Object(EncodeAll(list, tool.id)))
  }

  /** The document a rewrite starts from: the file's, or `{}` when there is none or it is empty. */
  function BaseDoc(content: Option<Text>): Json
  {
    if content.Some? && content.value.Doc? then content.value.doc else Object([])
  }

  /** How a rewrite ended: the write's result, no file to rewrite, or a file that does not parse. */
  datatype Outcome = Written(ok: bool) | NoFile | Unparsable

  /**
   * The rewrite after the backup: an unparsable file stops it; a missing or empty file stops
   * it when `skipMissing`, and otherwise counts as `{}`; then the write.
   */
  function WriteBack(fs: Files, readOnly: set<string>, tool: Tool, list: seq<McpServer>, skipMissing: bool): (Files, Outcome)
  {
    var path := tool.configPath;
    var c := Lookup(fs, path);
    if c.Some? && c.value.Malformed? then (fs, Unparsable)
    else if !(c.Some? && c.value.Doc?) && skipMissing then (fs, NoFile)
    else if Dirname(path) in readOnly then (fs, Written(false))
    else (Store(fs, path, Doc(Rebuilt(BaseDoc(c), list, tool))), Written(true))
  }

  /** One rewrite of a tool's file with the servers `list`: the optional backup, then the rest. */
  function Rewrite(fs: Files, readOnly: set<string>, tool: Tool, list: seq<McpServer>, skipMissing: bool,
                   backup: bool, now: string): (Files, Outcome)
  {
    WriteBack(AfterBackup(fs, readOnly, tool.configPath, now, backup), readOnly, tool, list, skipMissing)
  }

  /** The write touches the tool's file only. */
  lemma WriteBackOthers(fs: Files, readOnly: set<string>, tool: Tool, list: seq<McpServer>, skipMissing: bool, p: string)
    requires Dirname(p) != Dirname(tool.configPath) || Basename(p) != Basename(tool.configPath)
    ensures Lookup(WriteBack(fs, readOnly, tool, list, skipMissing).0, p) == Lookup(fs, p)
  {
    var c := Lookup(fs, tool.configPath);
    LookupStore(fs, tool.configPath, Doc(Rebuilt(BaseDoc(c), list, tool)), p);
  }

  /** A successful write leaves the rebuilt document in the tool's file. */
  lemma WriteBackWritten(fs: Files, readOnly: set<string>, tool: Tool, list: seq<McpServer>, skipMissing: bool)
    requires WriteBack(fs, readOnly, tool, list, skipMissing).1 == Written(true)
    ensures Lookup(WriteBack(fs, readOnly, tool, list, skipMissing).0, tool.configPath)
      == Some(Doc(Rebuilt(BaseDoc(Lookup(fs, tool.configPath)), list, tool)))
  {
    var c := Lookup(fs, tool.configPath);
    var written := Store(fs, tool.configPath, Doc(Rebuilt(BaseDoc(c), list, tool)));
    assert WriteBack(fs, readOnly, tool, list, skipMissing).0 == written;
    LookupStore(fs, tool.configPath, Doc(Rebuilt(BaseDoc(c), list, tool)), tool.configPath);
  }

  /**
   * A successful rewrite leaves the tool's file holding the rebuilt document: the file's own
   * document (`{}` when there was none) with only the tool's servers object replaced, and
   * reading the tool back decodes exactly the members written.
   */
  lemma RewriteReadBack(fs: Files, readOnly: set<string>, tool: Tool, list: seq<McpServer>, skipMissing: bool,
                        backup: bool, now: string, ids: nat -> string)
    requires '/' !in now && '\\' !in now
    requires Rewrite(fs, readOnly, tool, list, skipMissing, backup, now).1 == Written(true)
    ensures Lookup(Rewrite(fs, readOnly, tool, list, skipMissing, backup, now).0, tool.configPath)
      == Some(Doc(Rebuilt(BaseDoc(Lookup(fs, tool.configPath)), list, tool)))
    ensures ToolServers(Rewrite(fs, readOnly, tool, list, skipMissing, backup, now).0, tool, ids)
      == DecodeMembers(EncodeAll(list, tool.id), tool, ids).GetOr([])
  {
    var b := AfterBackup(fs, readOnly, tool.configPath, now, backup);
    BackupKeepsFile(fs, readOnly, tool.configPath, now, backup);
    WriteBackWritten(b, readOnly, tool, list, skipMissing);
    DecodeSetPath(BaseDoc(Lookup(fs, tool.configPath)), EncodeAll(list, tool.id), tool, ids);
  }

  /** A rewrite touches only the tool's file and that file's backups. */
  lemma RewriteOthers(fs: Files, readOnly: set<string>, tool: Tool, list: seq<McpServer>, skipMissing: bool,
                      backup: bool, now: string, p: string)
    requires '/' !in now && '\\' !in now
    requires Apart(p, tool.configPath)
    ensures Lookup(Rewrite(fs, readOnly, tool, list, skipMissing, backup, now).0, p) == Lookup(fs, p)
  {
    var b := AfterBackup(fs, readOnly, tool.configPath, now, backup);
    AfterBackupOthers(fs, readOnly, tool.configPath, now, backup, p);
    WriteBackOthers(b, readOnly, tool, list, skipMissing, p);
  }

  /** Unrelated to a tool's file: neither the file nor one of its backups. */
  predicate Apart(p: string, path: string)
  {
    Dirname(p) != Dirname(path) || (Basename(p) != Basename(path) && !StartsWith(Basename(p), BackupPrefix(Basename(path))))
  }

  // ---------------------------------------------------------------------------------------
  // The server list a rewrite writes.

  /** `{ ...server, enabledTools: [...(server.enabledTools || []), toolId]` without repeats `}`. */
  function WithTool(server: McpServer, toolId: string): (r: McpServer)
    ensures SameButTools(r, server)
    ensures r.enabledTools.Some? && NoDup(r.enabledTools.value)
    ensures forall t :: t in ToolsOf(r) <==> t in ToolsOf(server) || t == toolId
  {
    server.(enabledTools := Some(Dedup(ToolsOf(server) + [toolId])))
  }

  /** `findIndex(s => s.id === id)`: the first server with that id, or -1. */
  function FindById(ss: seq<McpServer>, id: string): (i: int)
    ensures -1 <= i < |ss|
    ensures i >= 0 ==> ss[i].id == id && forall j :: 0 <= j < i ==> ss[j].id != id
    ensures i < 0 ==> forall j :: 0 <= j < |ss| ==> ss[j].id != id
  {
    if ss == [] then -1
    else if ss[0].id == id then 0
    else
      var k := FindById(ss[1..], id);
      if k < 0 then -1 else k + 1
  }

  /**
   * The list `saveServerToTool` writes: the captured servers meant for the tool or sharing
   * the saved server's id, with the first of the latter replaced by the saved server (marked
   * for the tool), or the saved server appended.
   */
  function SaveSet(servers: seq<McpServer>, server: McpServer, toolId: string): seq<McpServer>
  {
    var current := Filter(servers, (s: McpServer) => EnabledFor(s, toolId) || s.id == server.id);
    var i := FindById(current, server.id);
    if i >= 0 then current[i := WithTool(server, toolId)] else current + [WithTool(server, toolId)]
  }

  /**
   * The saved server, marked for the tool, is written; so is every captured server meant for
   * the tool under another id; and nothing else is, save other servers sharing the saved id.
   */
  lemma SaveSetMembers(servers: seq<McpServer>, server: McpServer, toolId: string)
    ensures WithTool(server, toolId) in SaveSet(servers, server, toolId)
    ensures forall s :: s in servers && EnabledFor(s, toolId) && s.id != server.id ==> s in SaveSet(servers, server, toolId)
    ensures forall s :: s in SaveSet(servers, server, toolId) ==>
      s == WithTool(server, toolId) || (s in servers && (EnabledFor(s, toolId) || s.id == server.id))
  {
    var current := Filter(servers, (s: McpServer) => EnabledFor(s, toolId) || s.id == server.id);
    var i := FindById(current, server.id);
    var w := WithTool(server, toolId);
    if i >= 0 {
      var r := current[i := w];
      assert r[i] == w;
      forall s | s in servers && EnabledFor(s, toolId) && s.id != server.id ensures s in r {
        var j :| 0 <= j < |current| && current[j] == s;
        assert r[j] == s;
      }
      forall s | s in r ensures s == w || s in current {
        var j :| 0 <= j < |r| && r[j] == s;
        if j != i {
          assert current[j] == s;
        }
      }
    } else {
      assert (current + [w])[|current|] == w;
    }
  }

  /**
   * With unique ids the written list holds the saved server exactly once, and the tool's other
   * servers as they were captured.
   */
  lemma SaveSetUniqueIds(servers: seq<McpServer>, server: McpServer, toolId: string)
    requires UniqueIds(servers)
    ensures forall s :: s in SaveSet(servers, server, toolId) ==>
      s == WithTool(server, toolId) || (s in servers && EnabledFor(s, toolId) && s.id != server.id)
  {
    SaveSetMembers(servers, server, toolId);
    var current := Filter(servers, (s: McpServer) => EnabledFor(s, toolId) || s.id == server.id);
    var i := FindById(current, server.id);
    var w := WithTool(server, toolId);
    forall s | s in SaveSet(servers, server, toolId) && s != w ensures s.id != server.id {
      if s.id == server.id {
        assert s in servers;
        assert i >= 0 by {
          assert s in current;
          var j :| 0 <= j < |current| && current[j] == s;
        }
        var r := current[i := w];
        var j :| 0 <= j < |r| && r[j] == s;
        assert j != i && current[j] == s;
        FilterUniqueIds(servers, (x: McpServer) => EnabledFor(x, toolId) || x.id == server.id);
      }
    }
  }

  /** No two servers share an id. */
  predicate UniqueIds(ss: seq<McpServer>)
  {
    forall i, j :: 0 <= i < j < |ss| ==> ss[i].id != ss[j].id
  }

  /** Under unique ids, a filtered list has unique ids too. */
  lemma {:induction false} FilterUniqueIds(servers: seq<McpServer>, keep: McpServer -> bool)
    requires UniqueIds(servers)
    ensures UniqueIds(Filter(servers, keep))
  {
    if servers != [] {
      var rest := servers[1..];
      FilterUniqueIds(rest, keep);
      var r := Filter(servers, keep);
      var t := Filter(rest, keep);
      if keep(servers[0]) {
        assert r == [servers[0]] + t;
        forall a, b | 0 <= a < b < |r| ensures r[a].id != r[b].id {
          assert r[b] == t[b - 1];
          if a > 0 {
            assert r[a] == t[a - 1];
          } else {
            assert t[b - 1] in rest;
            var k :| 0 <= k < |rest| && rest[k] == t[b - 1];
            assert servers[k + 1] == rest[k];
          }
        }
      } else {
        assert r == t;
      }
    }
  }

  /** The list `removeServerFromTool` and `deleteServer` write: the tool's captured servers but the removed one. */
  function Remaining(servers: seq<McpServer>, id: string, toolId: string): (r: seq<McpServer>)
    ensures forall s :: s in r <==> s in servers && s.id != id && EnabledFor(s, toolId)
  {
    Filter(servers, (s: McpServer) => s.id != id && EnabledFor(s, toolId))
  }

  /** The list `syncToAllTools` writes for a tool: the captured servers that list it. */
  function SyncSet(servers: seq<McpServer>, toolId: string): (r: seq<McpServer>)
    ensures forall s :: s in r <==> s in servers && EnabledFor(s, toolId)
  {
    Filter(servers, (s: McpServer) => EnabledFor(s, toolId))
  }

  /**
   * A server without a tool list is written to no tool by a sync, although the encoder would
   * take it for every tool.
   */
  lemma SyncSkipsUnlisted(servers: seq<McpServer>, s: McpServer, toolId: string)
    requires s.enabledTools.None?
    ensures s !in SyncSet(servers, toolId) && Included(s, toolId)
  {
  }

  /** Everything a sync writes is taken by the encoder, so the tool's file gets all of it. */
  lemma SyncSetIncluded(servers: seq<McpServer>, toolId: string)
    ensures forall s :: s in SyncSet(servers, toolId) ==> Included(s, toolId)
  {
  }

  /** The list each rewrite of `saveServerToTool`, `removeServerFromTool` or `syncToAllTools` writes, by tool id. */
  function SaveLists(servers: seq<McpServer>, server: McpServer): string -> seq<McpServer>
  {
    (toolId: string) => SaveSet(servers, server, toolId)
  }

  function RemainingLists(servers: seq<McpServer>, id: string): string -> seq<McpServer>
  {
    (toolId: string) => Remaining(servers, id, toolId)
  }

  function SyncLists(servers: seq<McpServer>): string -> seq<McpServer>
  {
    (toolId: string) => SyncSet(servers, toolId)
  }

  /** `tools.filter(t => t.isInstalled && server.enabledTools?.includes(t.id))`. */
  function Targets(tools: seq<Tool>, server: McpServer): (r: seq<Tool>)
    ensures forall t :: t in r <==> t in tools && Installed(t) && EnabledFor(server, t.id)
  {
    Filter(tools, (t: Tool) => Installed(t) && EnabledFor(server, t.id))
  }

  /** One more tool extends the targets when it is installed and listed. */
  lemma TargetsNext(tools: seq<Tool>, server: McpServer, k: nat)
    requires k < |tools|
    ensures Targets(tools[..k + 1], server)
      == Targets(tools[..k], server) + (if Installed(tools[k]) && EnabledFor(server, tools[k].id) then [tools[k]] else [])
  {
    TakeNext(tools, k);
    FilterConcat(tools[..k], [tools[k]], (t: Tool) => Installed(t) && EnabledFor(server, t.id));
  }

  /** `tools.find(t => t.id === toolId && t.isInstalled)`. */
  function FindTool(tools: seq<Tool>, toolId: string): (r: Option<Tool>)
    ensures r.Some? ==> r.value in tools && r.value.id == toolId && Installed(r.value)
    ensures r.None? ==> forall t :: t in tools ==> t.id != toolId || !Installed(t)
  {
    if tools == [] then None
    else if tools[0].id == toolId && Installed(tools[0]) then Some(tools[0])
    else FindTool(tools[1..], toolId)
  }

  /** The tool ids `editServer` drops: the original's tools that the updated server no longer lists. */
  function RemovedToolIds(original: McpServer, updated: McpServer): (r: seq<string>)
    ensures forall t :: t in r <==> t in ToolsOf(original) && !EnabledFor(updated, t)
  {
    Filter(ToolsOf(original), (t: string) => !EnabledFor(updated, t))
  }

  /** The installed tools found for the dropped ids, in order; ids without one are skipped. */
  function RemovalTools(toolIds: seq<string>, tools: seq<Tool>): (r: seq<Tool>)
    ensures forall t :: t in r ==> t in tools && Installed(t) && t.id in toolIds
  {
    if toolIds == [] then []
    else
      var k := |toolIds| - 1;
      var rest := RemovalTools(toolIds[..k], tools);
      assert forall x :: x in toolIds[..k] ==> x in toolIds;
      rest + (match FindTool(tools, toolIds[k]) case Some(t) => [t] case None => [])
  }

  /** One more dropped id extends the removal tools by the tool found for it, if any. */
  lemma RemovalToolsNext(toolIds: seq<string>, tools: seq<Tool>, k: nat)
    requires k < |toolIds|
    ensures RemovalTools(toolIds[..k + 1], tools)
      == RemovalTools(toolIds[..k], tools) + (match FindTool(tools, toolIds[k]) case Some(t) => [t] case None => [])
  {
    TakeNext(toolIds, k);
  }

  // ---------------------------------------------------------------------------------------
  // Rewriting several tools' files in turn.

  /** The file system after one rewrite per tool, in order, each with the list `listFor` gives its id. */
  function RewriteEach(fs: Files, readOnly: set<string>, tools: seq<Tool>, listFor: string -> seq<McpServer>,
                       skipMissing: bool, backup: bool, now: string): Files
  {
    if tools == [] then fs
    else
      var t := tools[|tools| - 1];
      Rewrite(RewriteEach(fs, readOnly, tools[..|tools| - 1], listFor, skipMissing, backup, now),
              readOnly, t, listFor(t.id), skipMissing, backup, now).0
  }

  /** Rewriting several tools touches only their files and their backups. */
  lemma {:induction false} RewriteEachOthers(fs: Files, readOnly: set<string>, tools: seq<Tool>,
                                             listFor: string -> seq<McpServer>, skipMissing: bool, backup: bool,
                                             now: string, p: string)
    requires '/' !in now && '\\' !in now
    requires forall t :: t in tools ==> Apart(p, t.configPath)
    ensures Lookup(RewriteEach(fs, readOnly, tools, listFor, skipMissing, backup, now), p) == Lookup(fs, p)
  {
    if tools != [] {
      var k := |tools| - 1;
      assert forall t :: t in tools[..k] ==> t in tools;
      RewriteEachOthers(fs, readOnly, tools[..k], listFor, skipMissing, backup, now, p);
      assert tools[k] in tools;
      RewriteOthers(RewriteEach(fs, readOnly, tools[..k], listFor, skipMissing, backup, now),
                    readOnly, tools[k], listFor(tools[k].id), skipMissing, backup, now, p);
    }
  }

  /** One more tool extends the fold by one rewrite. */
  lemma RewriteEachNext(fs: Files, readOnly: set<string>, tools: seq<Tool>, listFor: string -> seq<McpServer>,
                        skipMissing: bool, backup: bool, now: string, i: nat)
    requires i < |tools|
    ensures RewriteEach(fs, readOnly, tools[..i + 1], listFor, skipMissing, backup, now)
      == Rewrite(RewriteEach(fs, readOnly, tools[..i], listFor, skipMissing, backup, now),
                 readOnly, tools[i], listFor(tools[i].id), skipMissing, backup, now).0
  {
    TakeNext(tools, i);
  }

  /** A rewrite appended to the fold. */
  lemma RewriteEachSnoc(fs: Files, readOnly: set<string>, tools: seq<Tool>, t: Tool, listFor: string -> seq<McpServer>,
                        skipMissing: bool, backup: bool, now: string)
    ensures RewriteEach(fs, readOnly, tools + [t], listFor, skipMissing, backup, now)
      == Rewrite(RewriteEach(fs, readOnly, tools, listFor, skipMissing, backup, now),
                 readOnly, t, listFor(t.id), skipMissing, backup, now).0
  {
    assert (tools + [t])[..|tools|] == tools;
  }

  /**
   * `syncToAllTools` over the tools, first to last: the file system, and whether a file that
   * does not parse stopped it (the tools after it are then left untouched).
   */
  function SyncAll(fs: Files, readOnly: set<string>, tools: seq<Tool>, servers: seq<McpServer>,
                   backup: bool, now: string): (Files, bool)
    decreases |tools|
  {
    if tools == [] then (fs, false)
    else
      var r := Rewrite(fs, readOnly, tools[0], SyncSet(servers, tools[0].id), false, backup, now);
      if r.1 == Unparsable then (r.0, true)
      else SyncAll(r.0, readOnly, tools[1..], servers, backup, now)
  }

  /** The sync of the tools from `k` on: one rewrite, then the rest unless it stopped. */
  lemma SyncAllAt(fs: Files, readOnly: set<string>, tools: seq<Tool>, servers: seq<McpServer>,
                  backup: bool, now: string, k: nat)
    requires k < |tools|
    ensures var r := Rewrite(fs, readOnly, tools[k], SyncSet(servers, tools[k].id), false, backup, now);
      SyncAll(fs, readOnly, tools[k..], servers, backup, now)
        == if r.1 == Unparsable then (r.0, true) else SyncAll(r.0, readOnly, tools[k + 1..], servers, backup, now)
  {
    DropNext(tools, k);
  }

  /** A sync that did not stop got past its first tool and went on with the rest. */
  lemma SyncAllHead(fs: Files, readOnly: set<string>, tools: seq<Tool>, servers: seq<McpServer>, backup: bool, now: string)
    requires tools != [] && !SyncAll(fs, readOnly, tools, servers, backup, now).1
    ensures var r := Rewrite(fs, readOnly, tools[0], SyncSet(servers, tools[0].id), false, backup, now);
      r.1 != Unparsable && SyncAll(fs, readOnly, tools, servers, backup, now) == SyncAll(r.0, readOnly, tools[1..], servers, backup, now)
  {
  }

  /** Rewriting a first tool, then the others, is rewriting them all. */
  lemma {:induction false} RewriteEachCons(fs: Files, readOnly: set<string>, t: Tool, rest: seq<Tool>,
                                           listFor: string -> seq<McpServer>, skipMissing: bool, backup: bool, now: string)
    ensures RewriteEach(fs, readOnly, [t] + rest, listFor, skipMissing, backup, now)
      == RewriteEach(Rewrite(fs, readOnly, t, listFor(t.id), skipMissing, backup, now).0, readOnly, rest, listFor,
                     skipMissing, backup, now)
    decreases |rest|
  {
    if rest == [] {
      RewriteEachSnoc(fs, readOnly, [], t, listFor, skipMissing, backup, now);
      assert [t] + rest == [] + [t];
    } else {
      var init := rest[..|rest| - 1];
      var u := rest[|rest| - 1];
      RewriteEachCons(fs, readOnly, t, init, listFor, skipMissing, backup, now);
      assert [t] + rest == ([t] + init) + [u] && rest == init + [u];
      RewriteEachSnoc(fs, readOnly, [t] + init, u, listFor, skipMissing, backup, now);
      RewriteEachSnoc(Rewrite(fs, readOnly, t, listFor(t.id), skipMissing, backup, now).0, readOnly, init, u,
                      listFor, skipMissing, backup, now);
    }
  }

  /** A sync that does not stop writes every tool, exactly as separate rewrites would. */
  lemma {:induction false} SyncAllUnstopped(fs: Files, readOnly: set<string>, tools: seq<Tool>, servers: seq<McpServer>,
                                            backup: bool, now: string)
    requires !SyncAll(fs, readOnly, tools, servers, backup, now).1
    ensures SyncAll(fs, readOnly, tools, servers, backup, now).0
      == RewriteEach(fs, readOnly, tools, SyncLists(servers), false, backup, now)
    decreases |tools|
  {
    if tools != [] {
      var t := tools[0];
      var r := Rewrite(fs, readOnly, t, SyncSet(servers, t.id), false, backup, now);
      SyncAllHead(fs, readOnly, tools, servers, backup, now);
      SyncAllUnstopped(r.0, readOnly, tools[1..], servers, backup, now);
      assert SyncLists(servers)(t.id) == SyncSet(servers, t.id);
      assert tools == [t] + tools[1..];
      RewriteEachCons(fs, readOnly, t, tools[1..], SyncLists(servers), false, backup, now);
    }
  }

  /** In a sync that did not stop, no rewrite met a file that does not parse. */
  lemma {:induction false} SyncAllParsed(fs: Files, readOnly: set<string>, tools: seq<Tool>, servers: seq<McpServer>,
                                         backup: bool, now: string, i: nat)
    requires i < |tools| && !SyncAll(fs, readOnly, tools, servers, backup, now).1
    ensures var before := RewriteEach(fs, readOnly, tools[..i], SyncLists(servers), false, backup, now);
      Rewrite(before, readOnly, tools[i], SyncSet(servers, tools[i].id), false, backup, now).1 != Unparsable
    decreases i
  {
    var t := tools[0];
    var r := Rewrite(fs, readOnly, t, SyncSet(servers, t.id), false, backup, now);
    SyncAllHead(fs, readOnly, tools, servers, backup, now);
    if i == 0 {
      assert tools[..0] == [];
    } else {
      SyncAllParsed(r.0, readOnly, tools[1..], servers, backup, now, i - 1);
      TakeCons(tools, i);
      assert SyncLists(servers)(t.id) == SyncSet(servers, t.id);
      RewriteEachCons(fs, readOnly, t, tools[1..][..i - 1], SyncLists(servers), false, backup, now);
    }
  }

  /** Without `skipMissing`, a rewrite into a writable directory that did not stop on parsing wrote the file. */
  lemma RewriteWrote(fs: Files, readOnly: set<string>, tool: Tool, list: seq<McpServer>, backup: bool, now: string)
    requires Dirname(tool.configPath) !in readOnly
    requires Rewrite(fs, readOnly, tool, list, false, backup, now).1 != Unparsable
    ensures Rewrite(fs, readOnly, tool, list, false, backup, now).1 == Written(true)
  {
  }

  /** In a sync that did not stop, the `i`-th tool's rewrite succeeded when its directory is writable. */
  lemma SyncAllStep(fs: Files, readOnly: set<string>, tools: seq<Tool>, servers: seq<McpServer>,
                    backup: bool, now: string, i: nat)
    requires i < |tools| && Dirname(tools[i].configPath) !in readOnly
    requires !SyncAll(fs, readOnly, tools, servers, backup, now).1
    ensures var before := RewriteEach(fs, readOnly, tools[..i], SyncLists(servers), false, backup, now);
      Rewrite(before, readOnly, tools[i], SyncSet(servers, tools[i].id), false, backup, now).1 == Written(true)
  {
    SyncAllParsed(fs, readOnly, tools, servers, backup, now, i);
    RewriteWrote(RewriteEach(fs, readOnly, tools[..i], SyncLists(servers), false, backup, now), readOnly, tools[i],
                 SyncSet(servers, tools[i].id), backup, now);
  }

  /** Rewrites that leave `p` apart do not change what `p` reads. */
  lemma {:induction false} RewriteEachTail(fs: Files, readOnly: set<string>, tools: seq<Tool>,
                                           listFor: string -> seq<McpServer>, skipMissing: bool, backup: bool,
                                           now: string, n: nat, p: string)
    requires '/' !in now && '\\' !in now
    requires n <= |tools| && forall j :: n <= j < |tools| ==> Apart(p, tools[j].configPath)
    ensures Lookup(RewriteEach(fs, readOnly, tools, listFor, skipMissing, backup, now), p)
      == Lookup(RewriteEach(fs, readOnly, tools[..n], listFor, skipMissing, backup, now), p)
  {
    if n < |tools| {
      var k := |tools| - 1;
      RewriteEachTail(fs, readOnly, tools[..k], listFor, skipMissing, backup, now, n, p);
      assert tools[..k][..n] == tools[..n];
      RewriteOthers(RewriteEach(fs, readOnly, tools[..k], listFor, skipMissing, backup, now),
                    readOnly, tools[k], listFor(tools[k].id), skipMissing, backup, now, p);
    } else {
      assert tools[..n] == tools;
    }
  }

  /**
   * After a sync that did not stop, a tool in a writable directory whose file no later tool
   * touches reads back exactly the servers that list it.
   */
  lemma SyncReadBack(fs: Files, readOnly: set<string>, tools: seq<Tool>, servers: seq<McpServer>,
                     backup: bool, now: string, i: nat, ids: nat -> string)
    requires '/' !in now && '\\' !in now
    requires i < |tools| && Dirname(tools[i].configPath) !in readOnly
    requires !SyncAll(fs, readOnly, tools, servers, backup, now).1
    requires forall j :: i < j < |tools| ==> Apart(tools[i].configPath, tools[j].configPath)
    ensures ToolServers(SyncAll(fs, readOnly, tools, servers, backup, now).0, tools[i], ids)
      == DecodeMembers(EncodeAll(SyncSet(servers, tools[i].id), tools[i].id), tools[i], ids).GetOr([])
  {
    var listFor := SyncLists(servers);
    var t := tools[i];
    SyncAllUnstopped(fs, readOnly, tools, servers, backup, now);
    var before := RewriteEach(fs, readOnly, tools[..i], listFor, false, backup, now);
    RewriteEachNext(fs, readOnly, tools, listFor, false, backup, now, i);
    SyncAllStep(fs, readOnly, tools, servers, backup, now, i);
    RewriteReadBack(before, readOnly, t, listFor(t.id), false, backup, now, ids);
    RewriteEachTail(fs, readOnly, tools, listFor, false, backup, now, i + 1, t.configPath);
  }

  /**
   * The file system after `editServer` of a known id: first the original server is removed
   * from the installed tools it no longer lists, then the updated server is saved to the
   * installed tools it lists, each write using the server list captured at the start.
   */
  function EditFiles(fs: Files, readOnly: set<string>, servers: seq<McpServer>, tools: seq<Tool>, id: string,
                     updates: ServerPatch, backup: bool, now: string): Files
    requires FindById(servers, id) >= 0
  {
    var original := servers[FindById(servers, id)];
    var updated := ApplyPatch(original, updates);
    var dropped := RewriteEach(fs, readOnly, RemovalTools(RemovedToolIds(original, updated), tools),
                               RemainingLists(servers, id), true, backup, now);
    RewriteEach(dropped, readOnly, Targets(tools, updated), SaveLists(servers, updated), false, backup, now)
  }

  // ---------------------------------------------------------------------------------------
  // The hook.

  /**
   * The operations of `useServers` over the application store and the file system the main
   * process reaches.  Each operation works from the server list, tools and backup preference
   * as they were when it started.
   */
  class ServerManager {
    const store: AppStore
    const files: FileStore

    ghost predicate Valid()
      reads files
    {
      files.Valid()
    }

    constructor(store: AppStore, files: FileStore)
      requires files.Valid()
      ensures Valid() && this.store == store && this.files == files
    {
      this.store := store;
      this.files := files;
    }

    /**
     * One rewrite of a tool's file with `list`: back up when enabled, read, encode, rebuild,
     * write.  A missing or empty file ends it when `skipMissing`, and an unparsable one always.
     */
    method RewriteTool(tool: Tool, list: seq<McpServer>, skipMissing: bool, now: string) returns (outcome: Outcome)
      requires Valid() && '/' !in now && '\\' !in now
      modifies files
      ensures Valid()
      ensures (files.dirs, outcome)
        == Rewrite(old(files.dirs), files.readOnly, tool, list, skipMissing, store.preferences.backupEnabled, now)
    {
      if store.preferences.backupEnabled {
        var _ := files.CreateBackup(tool.configPath, now);
      }
      var content := files.ReadConfig(tool.configPath);
      var existingConfig: Json := Object([]);
      if content.Some? && content.value.Malformed? {
        return Unparsable;
      }
      if content.Some? && content.value.Doc? {
        existingConfig := content.value.doc;
      } else if skipMissing {
        return NoFile;
      }
      var toolServers := ServersToToolConfig(list, tool);
      var newConfig := BuildFullConfig(existingConfig, toolServers, tool);
      var ok := files.WriteConfig(tool.configPath, Doc(newConfig));
      return Written(ok);
    }

    /** `loadServersFromTool`: the decoded records, or none whatever goes wrong. */
    method LoadServersFromTool(tool: Tool, ids: nat -> string) returns (servers: seq<McpServer>)
      ensures servers == ToolServers(files.dirs, tool, ids)
    {
      var content := files.ReadConfig(tool.configPath);
      if content.None? || !content.value.Doc? {
        return [];
      }
      var decoded := ToolConfigToServers(content.value.doc, tool, ids);
      servers := decoded.GetOr([]);
    }

    /**
     * `loadAllServers`: clear the error, read every installed tool in order and store the
     * records merged by name.
     */
    method LoadAllServers(ids: (nat, nat) -> string)
      modifies store
      ensures store.servers == Gather(Loaded(files.dirs, InstalledTools(old(store.tools)), ids))
      ensures store.error == None
      ensures store.tools == old(store.tools) && store.preferences == old(store.preferences)
      ensures store.logs == old(store.logs) && store.logIdCounter == old(store.logIdCounter)
    {
      store.SetError(None);
      var installed := InstalledTools(store.tools);
      var allServers: seq<McpServer> := [];
      var seenNames: set<string> := {};
      var k := 0;
      while k < |installed|
        invariant 0 <= k <= |installed|
        invariant allServers == Gather(Loaded(files.dirs, installed[..k], ids))
        invariant forall n :: n in seenNames <==> FindByName(allServers, n) >= 0
        modifies {}
      {
        var toolServers := LoadServersFromTool(installed[k], IdsOf(ids, k));
        LoadedNext(files.dirs, installed, ids, k);
        allServers, seenNames := AbsorbAll(allServers, seenNames, toolServers, Loaded(files.dirs, installed[..k], ids));
        k := k + 1;
      }
      assert installed[..k] == installed;
      store.SetServers(allServers);
    }

    /**
     * `saveServerToTool` with the server list `servers` captured by the calling operation:
     * true exactly when the write succeeded.
     */
    method SaveServerToTool(servers: seq<McpServer>, server: McpServer, tool: Tool, now: string) returns (ok: bool)
      requires Valid() && '/' !in now && '\\' !in now
      modifies files
      ensures Valid()
      ensures var r := Rewrite(old(files.dirs), files.readOnly, tool, SaveSet(servers, server, tool.id), false,
                               store.preferences.backupEnabled, now);
        files.dirs == r.0 && (ok <==> r.1 == Written(true))
    {
      var outcome := RewriteTool(tool, SaveSet(servers, server, tool.id), false, now);
      ok := outcome == Written(true);
    }

    /**
     * `removeServerFromTool` with the captured list: true when there was no file to rewrite or
     * the write succeeded.
     */
    method RemoveServerFromTool(servers: seq<McpServer>, server: McpServer, tool: Tool, now: string) returns (ok: bool)
      requires Valid() && '/' !in now && '\\' !in now
      modifies files
      ensures Valid()
      ensures var r := Rewrite(old(files.dirs), files.readOnly, tool, Remaining(servers, server.id, tool.id), true,
                               store.preferences.backupEnabled, now);
        files.dirs == r.0 && (ok <==> r.1 == NoFile || r.1 == Written(true))
    {
      var outcome := RewriteTool(tool, Remaining(servers, server.id, tool.id), true, now);
      ok := outcome == NoFile || outcome == Written(true);
    }

    /** `createServer`: stamp the new server, add it to the store, save it to its installed tools. */
    method CreateServer(serverData: McpServer, id: string, now: string) returns (newServer: McpServer)
      requires Valid() && '/' !in now && '\\' !in now
      modifies store, files
      ensures Valid()
      ensures newServer == serverData.(id := id, createdAt := Some(now), updatedAt := Some(now))
      ensures store.servers == old(store.servers) + [newServer]
      ensures files.dirs == RewriteEach(old(files.dirs), files.readOnly, Targets(old(store.tools), serverData),
                                        SaveLists(old(store.servers), newServer), false, old(store.preferences).backupEnabled, now)
      ensures store.tools == old(store.tools) && store.preferences == old(store.preferences) && store.error == old(store.error)
      ensures store.logs == old(store.logs) && store.logIdCounter == old(store.logIdCounter)
    {
      var servers := store.servers;
      newServer := serverData.(id := id, createdAt := Some(now), updatedAt := Some(now));
      store.AddServer(newServer);
      var enabledTools := Targets(store.tools, serverData);
      SaveToTools(servers, newServer, enabledTools, now);
    }

    /** The loop of `createServer` and `editServer`: save the server to each tool in turn, ignoring failures. */
    method SaveToTools(servers: seq<McpServer>, server: McpServer, tools: seq<Tool>, now: string)
      requires Valid() && '/' !in now && '\\' !in now
      modifies files
      ensures Valid()
      ensures files.dirs == RewriteEach(old(files.dirs), files.readOnly, tools, SaveLists(servers, server), false,
                                        store.preferences.backupEnabled, now)
    {
      ghost var fs0 := files.dirs;
      ghost var bk := store.preferences.backupEnabled;
      ghost var listFor := SaveLists(servers, server);
      var i := 0;
      while i < |tools|
        invariant 0 <= i <= |tools| && Valid()
        invariant files.dirs == RewriteEach(fs0, files.readOnly, tools[..i], listFor, false, bk, now)
      {
        assert listFor(tools[i].id) == SaveSet(servers, server, tools[i].id);
        RewriteEachNext(fs0, files.readOnly, tools, listFor, false, bk, now, i);
        var _ := SaveServerToTool(servers, server, tools[i], now);
        i := i + 1;
      }
      TakeAll(tools);
    }

    /** The first loop of `editServer`: remove the original server from each installed tool found for a dropped id. */
    method RemoveFromTools(servers: seq<McpServer>, original: McpServer, toolIds: seq<string>, tools: seq<Tool>, now: string)
      requires Valid() && '/' !in now && '\\' !in now
      modifies files
      ensures Valid()
      ensures files.dirs == RewriteEach(old(files.dirs), files.readOnly, RemovalTools(toolIds, tools),
                                        RemainingLists(servers, original.id), true, store.preferences.backupEnabled, now)
    {
      ghost var fs0 := files.dirs;
      var k := 0;
      while k < |toolIds|
        invariant 0 <= k <= |toolIds| && Valid()
        invariant files.dirs == RewriteEach(fs0, files.readOnly, RemovalTools(toolIds[..k], tools),
                                            RemainingLists(servers, original.id), true, store.preferences.backupEnabled, now)
      {
        var tool := FindTool(tools, toolIds[k]);
        RemovalToolsNext(toolIds, tools, k);
        if tool.Some? {
          var _ := RemoveServerFromTool(servers, original, tool.value, now);
          RewriteEachSnoc(fs0, files.readOnly, RemovalTools(toolIds[..k], tools), tool.value,
                          RemainingLists(servers, original.id), true, store.preferences.backupEnabled, now);
        } else {
          assert RemovalTools(toolIds[..k + 1], tools) == RemovalTools(toolIds[..k], tools);
        }
        k := k + 1;
      }
      TakeAll(toolIds);
    }

    /**
     * `editServer`: nothing for an unknown id; otherwise remove the original from the
     * installed tools it no longer lists, update the store, and save the updated server to
     * the installed tools it lists.
     */
    method EditServer(id: string, updates: ServerPatch, now: string)
      requires Valid() && '/' !in now && '\\' !in now
      modifies store, files
      ensures Valid()
      ensures FindById(old(store.servers), id) < 0 ==> store.servers == old(store.servers) && files.dirs == old(files.dirs)
      ensures FindById(old(store.servers), id) >= 0 ==>
        store.servers == UpdateById(old(store.servers), id, updates, now)
        && files.dirs == EditFiles(old(files.dirs), files.readOnly, old(store.servers), old(store.tools), id, updates,
                                   old(store.preferences).backupEnabled, now)
      ensures store.tools == old(store.tools) && store.preferences == old(store.preferences) && store.error == old(store.error)
      ensures store.logs == old(store.logs) && store.logIdCounter == old(store.logIdCounter)
    {
      var servers := store.servers;
      var tools := store.tools;
      var index := FindById(servers, id);
      if index < 0 {
        return;
      }
      var originalServer := servers[index];
      var updatedServer := ApplyPatch(originalServer, updates);
      var removedToolIds := RemovedToolIds(originalServer, updatedServer);
      RemoveFromTools(servers, originalServer, removedToolIds, tools, now);
      store.UpdateServer(id, updates, now);
      var enabledTools := Targets(tools, updatedServer);
      SaveToTools(servers, updatedServer, enabledTools, now);
    }

    /** The loop of `deleteServer`: remove the server from each installed tool that it lists. */
    method RemoveFromEnabled(servers: seq<McpServer>, server: McpServer, installed: seq<Tool>, now: string)
      requires Valid() && '/' !in now && '\\' !in now
      requires forall t :: t in installed ==> Installed(t)
      modifies files
      ensures Valid()
      ensures files.dirs == RewriteEach(old(files.dirs), files.readOnly, Targets(installed, server),
                                        RemainingLists(servers, server.id), true, store.preferences.backupEnabled, now)
    {
      ghost var fs0 := files.dirs;
      ghost var bk := store.preferences.backupEnabled;
      var k := 0;
      while k < |installed|
        invariant 0 <= k <= |installed| && Valid()
        invariant files.dirs == RewriteEach(fs0, files.readOnly, Targets(installed[..k], server), RemainingLists(servers, server.id), true, bk, now)
      {
        var tool := installed[k];
        assert tool in installed;
        ghost var before := Targets(installed[..k], server);
        TargetsNext(installed, server, k);
        if EnabledFor(server, tool.id) {
          assert Targets(installed[..k + 1], server) == before + [tool];
          assert RemainingLists(servers, server.id)(tool.id) == Remaining(servers, server.id, tool.id);
          var _ := RewriteTool(tool, Remaining(servers, server.id, tool.id), true, now);
          RewriteEachSnoc(fs0, files.readOnly, before, tool, RemainingLists(servers, server.id), true, bk, now);
        } else {
          assert Targets(installed[..k + 1], server) == before;
        }
        k := k + 1;
      }
      TakeAll(installed);
    }

    /**
     * `deleteServer`: nothing for an unknown id; otherwise rewrite each installed tool the
     * server lists without it, skipping missing files and ignoring failures, then remove it
     * from the store.
     */
    method DeleteServer(id: string, now: string)
      requires Valid() && '/' !in now && '\\' !in now
      modifies store, files
      ensures Valid()
      ensures FindById(old(store.servers), id) < 0 ==> store.servers == old(store.servers) && files.dirs == old(files.dirs)
      ensures FindById(old(store.servers), id) >= 0 ==>
        store.servers == WithoutServer(old(store.servers), id)
        && files.dirs == RewriteEach(old(files.dirs), files.readOnly,
                                     Targets(InstalledTools(old(store.tools)), old(store.servers)[FindById(old(store.servers), id)]),
                                     RemainingLists(old(store.servers), id), true, old(store.preferences).backupEnabled, now)
      ensures store.tools == old(store.tools) && store.preferences == old(store.preferences) && store.error == old(store.error)
      ensures store.logs == old(store.logs) && store.logIdCounter == old(store.logIdCounter)
    {
      var servers := store.servers;
      var index := FindById(servers, id);
      if index < 0 {
        return;
      }
      var server := servers[index];
      var installed := InstalledTools(store.tools);
      RemoveFromEnabled(servers, server, installed, now);
      store.RemoveServer(id);
    }

    /** The loop of `syncToAllTools`: write each tool's servers in turn, stopping at a file that does not parse. */
    method SyncTools(servers: seq<McpServer>, installedTools: seq<Tool>, now: string) returns (failed: bool)
      requires Valid() && '/' !in now && '\\' !in now
      modifies files
      ensures Valid()
      ensures (files.dirs, failed) == SyncAll(old(files.dirs), files.readOnly, installedTools, servers,
                                              store.preferences.backupEnabled, now)
    {
      ghost var fs0 := files.dirs;
      ghost var bk := store.preferences.backupEnabled;
      var k := 0;
      assert installedTools[k..] == installedTools;
      while k < |installedTools|
        invariant 0 <= k <= |installedTools| && Valid()
        invariant SyncAll(fs0, files.readOnly, installedTools, servers, bk, now)
          == SyncAll(files.dirs, files.readOnly, installedTools[k..], servers, bk, now)
      {
        var tool := installedTools[k];
        SyncAllAt(files.dirs, files.readOnly, installedTools, servers, bk, now, k);
        var outcome := RewriteTool(tool, SyncSet(servers, tool.id), false, now);
        if outcome == Unparsable {
          return true;
        }
        k := k + 1;
      }
      assert installedTools[k..] == [];
      return false;
    }

    /**
     * `syncToAllTools`: clear the error and write to every installed tool the servers that list
     * it; a file that does not parse stops the sync with the parser's message `parseError`.
     */
    method SyncToAllTools(now: string, parseError: string)
      requires Valid() && '/' !in now && '\\' !in now
      modifies store, files
      ensures Valid()
      ensures var r := SyncAll(old(files.dirs), files.readOnly, InstalledTools(old(store.tools)), old(store.servers),
                               old(store.preferences).backupEnabled, now);
        files.dirs == r.0 && store.error == if r.1 then Some("Sync failed: " + parseError) else None
      ensures store.servers == old(store.servers) && store.tools == old(store.tools) && store.preferences == old(store.preferences)
      ensures store.logs == old(store.logs) && store.logIdCounter == old(store.logIdCounter)
    {
      store.SetError(None);
      var servers := store.servers;
      var installedTools := InstalledTools(store.tools);
      var failed := SyncTools(servers, installedTools, now);
      if failed {
        store.SetError(Some("Sync failed: " + parseError));
      }
    }
  }
}
