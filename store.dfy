/**
 * The application store (`useStore`): the canonical server list, the tool list, the user
 * preferences and the log panel's entries, with the reducers that update them.  Each reducer
 * computes its new field values with a pure function below; the class assigns them.
 */
module Store {
  import opened Wrappers
  import opened Types
  import opened Lists

  /** The log keeps the previous 99 entries and the new one. */
  const MAX_LOGS := 100

  /** The preferences a fresh store starts with. */
  const DEFAULT_PREFERENCES := Preferences(System, [], [], None, true, 10, None, None)

  /** `[...logs.slice(-99), entry]`. */
  function AppendLog(logs: seq<LogEntry>, entry: LogEntry): (r: seq<LogEntry>)
    ensures |r| == if |logs| < MAX_LOGS then |logs| + 1 else MAX_LOGS
    ensures r[|r| - 1] == entry
    ensures r[..|r| - 1] == logs[|logs| - (|r| - 1)..]
  {
    var kept := if |logs| <= MAX_LOGS - 1 then logs else logs[|logs| - (MAX_LOGS - 1)..];
    assert (kept + [entry])[..|kept|] == kept;
    kept + [entry]
  }

  /** Every entry has a greater id than those before it. */
  predicate IdsIncrease(logs: seq<LogEntry>)
  {
    forall i, j :: 0 <= i < j < |logs| ==> logs[i].id < logs[j].id
  }

  /** An entry with an id above every logged one keeps the ids increasing, and it is the greatest. */
  lemma AppendLogIncrease(logs: seq<LogEntry>, entry: LogEntry)
    requires IdsIncrease(logs)
    requires forall i :: 0 <= i < |logs| ==> logs[i].id < entry.id
    ensures IdsIncrease(AppendLog(logs, entry))
    ensures forall i :: 0 <= i < |AppendLog(logs, entry)| ==> AppendLog(logs, entry)[i].id <= entry.id
  {
    var r := AppendLog(logs, entry);
    var d := |logs| - (|r| - 1);
    assert forall i :: 0 <= i < |r| - 1 ==> r[i] == logs[d + i] by {
      forall i | 0 <= i < |r| - 1 ensures r[i] == logs[d + i] {
        assert r[i] == r[..|r| - 1][i];
      }
    }
  }

  /** `{ ...s, ...updates, updatedAt: now }`. */
  function Updated(s: McpServer, updates: ServerPatch, now: string): McpServer
  {
    ApplyPatch(s, updates).(updatedAt := Some(now))
  }

  /** `servers.map(s => s.id === id ? { ...s, ...updates, updatedAt: now } : s)`. */
  function UpdateById(servers: seq<McpServer>, id: string, updates: ServerPatch, now: string): (r: seq<McpServer>)
    ensures |r| == |servers|
    ensures forall i :: 0 <= i < |servers| ==>
      r[i] == if servers[i].id == id then Updated(servers[i], updates, now) else servers[i]
  {
    if servers == [] then []
    else
      var s := servers[0];
      [if s.id == id then Updated(s, updates, now) else s] + UpdateById(servers[1..], id, updates, now)
  }

  /** The ids of a server list, in order. */
  function Ids(servers: seq<McpServer>): (ids: seq<string>)
    ensures |ids| == |servers|
    ensures forall i :: 0 <= i < |servers| ==> ids[i] == servers[i].id
  {
    seq(|servers|, i requires 0 <= i < |servers| => servers[i].id)
  }

  /** Updating an id no server has changes nothing. */
  lemma UpdateByIdUnknown(servers: seq<McpServer>, id: string, updates: ServerPatch, now: string)
    requires id !in Ids(servers)
    ensures UpdateById(servers, id, updates, now) == servers
  {
    var r := UpdateById(servers, id, updates, now);
    assert forall i :: 0 <= i < |servers| ==> servers[i].id != id by {
      forall i | 0 <= i < |servers| ensures servers[i].id != id {
        assert Ids(servers)[i] == servers[i].id;
      }
    }
  }

  /** An update that leaves `id` out keeps every server's id, so the list stays addressable by id. */
  lemma UpdateByIdKeepsIds(servers: seq<McpServer>, id: string, updates: ServerPatch, now: string)
    requires updates.id.Keep? || updates.id == Set(id)
    ensures Ids(UpdateById(servers, id, updates, now)) == Ids(servers)
  {
  }

  /** Applying the same update again at the same time gives the same list. */
  lemma UpdateByIdTwice(servers: seq<McpServer>, id: string, updates: ServerPatch, now: string)
    requires updates.id.Keep? || updates.id == Set(id)
    ensures UpdateById(UpdateById(servers, id, updates, now), id, updates, now) == UpdateById(servers, id, updates, now)
  {
  }

  /** `servers.filter(s => s.id !== id)`. */
  function WithoutServer(servers: seq<McpServer>, id: string): (r: seq<McpServer>)
    ensures forall s :: s in r <==> s in servers && s.id != id
  {
    Filter(servers, (s: McpServer) => s.id != id)
  }

  /**
   * Removal deletes every copy of the servers with that id and keeps every copy of the others,
   * in their order.
   */
  lemma WithoutServerExact(servers: seq<McpServer>, more: seq<McpServer>, id: string, s: McpServer)
    ensures multiset(WithoutServer(servers, id))[s] == if s.id == id then 0 else multiset(servers)[s]
    ensures WithoutServer(servers + more, id) == WithoutServer(servers, id) + WithoutServer(more, id)
  {
    FilterCount(servers, (s: McpServer) => s.id != id, s);
    FilterConcat(servers, more, (s: McpServer) => s.id != id);
  }

  /** `tools.filter(t => t.id !== id)`. */
  function WithoutTool(tools: seq<Tool>, id: string): (r: seq<Tool>)
    ensures forall t :: t in r <==> t in tools && t.id != id
  {
    Filter(tools, (t: Tool) => t.id != id)
  }

  /** Removal deletes every copy of the tools with that id and keeps the others, in their order. */
  lemma WithoutToolExact(tools: seq<Tool>, more: seq<Tool>, id: string, t: Tool)
    ensures multiset(WithoutTool(tools, id))[t] == if t.id == id then 0 else multiset(tools)[t]
    ensures WithoutTool(tools + more, id) == WithoutTool(tools, id) + WithoutTool(more, id)
  {
    FilterCount(tools, (t: Tool) => t.id != id, t);
    FilterConcat(tools, more, (t: Tool) => t.id != id);
  }

  /** `{ ...preferences, ...patch }`. */
  function MergePreferences(p: Preferences, patch: PreferencesPatch): Preferences
  {
    Preferences(patch.theme.Over(p.theme), patch.customTools.Over(p.customTools), patch.profiles.Over(p.profiles),
      patch.activeProfileId.Over(p.activeProfileId), patch.backupEnabled.Over(p.backupEnabled),
      patch.maxBackups.Over(p.maxBackups), patch.toolOverrides.Over(p.toolOverrides),
      patch.hiddenTools.Over(p.hiddenTools))
  }

  /** The patch that supplies no field. */
  const NO_PREFERENCES := PreferencesPatch(Keep, Keep, Keep, Keep, Keep, Keep, Keep, Keep)

  /** The patch supplying every field of `p`. */
  function AllOf(p: Preferences): PreferencesPatch
  {
    PreferencesPatch(Set(p.theme), Set(p.customTools), Set(p.profiles), Set(p.activeProfileId),
      Set(p.backupEnabled), Set(p.maxBackups), Set(p.toolOverrides), Set(p.hiddenTools))
  }

  /**
   * The merge is shallow: an empty patch changes nothing, a full patch replaces everything,
   * and merging the same patch twice is merging it once.
   */
  lemma MergePreferencesLaws(p: Preferences, q: Preferences, patch: PreferencesPatch)
    ensures MergePreferences(p, NO_PREFERENCES) == p
    ensures MergePreferences(p, AllOf(q)) == q
    ensures MergePreferences(MergePreferences(p, patch), patch) == MergePreferences(p, patch)
  {
  }

  /** A field the patch leaves out keeps its value. */
  lemma MergeKeeps(p: Preferences, patch: PreferencesPatch)
    ensures patch.backupEnabled.Keep? ==> MergePreferences(p, patch).backupEnabled == p.backupEnabled
    ensures patch.customTools.Keep? ==> MergePreferences(p, patch).customTools == p.customTools
    ensures patch.toolOverrides.Keep? ==> MergePreferences(p, patch).toolOverrides == p.toolOverrides
    ensures patch.hiddenTools.Keep? ==> MergePreferences(p, patch).hiddenTools == p.hiddenTools
  {
  }

  /** Log entries have increasing ids, none above the counter, and there are at most a hundred. */
  ghost predicate LogsValid(logs: seq<LogEntry>, counter: int)
  {
    |logs| <= MAX_LOGS && IdsIncrease(logs) && forall i :: 0 <= i < |logs| ==> logs[i].id <= counter
  }

  /** The store's persistent and log state; the module's `logIdCounter` is a field. */
  class AppStore {
    var logs: seq<LogEntry>
    var servers: seq<McpServer>
    var tools: seq<Tool>
    var preferences: Preferences
    var error: Option<string>
    var logIdCounter: int

    ghost predicate Valid()
      reads this
    {
      LogsValid(logs, logIdCounter)
    }

    /** The initial state. */
    constructor()
      ensures Valid()
      ensures logs == [] && servers == [] && tools == [] && error == None && logIdCounter == 0
      ensures preferences == DEFAULT_PREFERENCES
      ensures preferences.backupEnabled && preferences.maxBackups == 10 && preferences.customTools == []
    {
      logs := [];
      servers := [];
      tools := [];
      preferences := DEFAULT_PREFERENCES;
      error := None;
      logIdCounter := 0;
    }

    /** `addLog`: the entry gets the next id and joins the newest 99. */
    method AddLog(level: LogLevel, message: string, now: string)
      requires Valid()
      modifies this
      ensures Valid()
      ensures logIdCounter == old(logIdCounter) + 1
      ensures logs == AppendLog(old(logs), LogEntry(logIdCounter, now, level, message))
      ensures servers == old(servers) && tools == old(tools) && preferences == old(preferences) && error == old(error)
    {
      logIdCounter := logIdCounter + 1;
      var entry := LogEntry(logIdCounter, now, level, message);
      AppendLogIncrease(logs, entry);
      logs := AppendLog(logs, entry);
    }

    /** `clearLogs`. */
    method ClearLogs()
      requires Valid()
      modifies this
      ensures Valid()
      ensures logs == [] && logIdCounter == old(logIdCounter)
      ensures servers == old(servers) && tools == old(tools) && preferences == old(preferences) && error == old(error)
    {
      logs := [];
    }

    /** `setServers`. */
    method SetServers(list: seq<McpServer>)
      modifies this
      ensures servers == list
      ensures logs == old(logs) && logIdCounter == old(logIdCounter)
      ensures tools == old(tools) && preferences == old(preferences) && error == old(error)
    {
      servers := list;
    }

    /** `addServer`: exactly one server more, at the end. */
    method AddServer(server: McpServer)
      modifies this
      ensures servers == old(servers) + [server]
      ensures logs == old(logs) && logIdCounter == old(logIdCounter)
      ensures tools == old(tools) && preferences == old(preferences) && error == old(error)
    {
      servers := servers + [server];
    }

    /** `updateServer`: merge `updates` into the servers with that id and stamp them. */
    method UpdateServer(id: string, updates: ServerPatch, now: string)
      modifies this
      ensures servers == UpdateById(old(servers), id, updates, now)
      ensures logs == old(logs) && logIdCounter == old(logIdCounter)
      ensures tools == old(tools) && preferences == old(preferences) && error == old(error)
    {
      servers := UpdateById(servers, id, updates, now);
    }

    /** `removeServer`. */
    method RemoveServer(id: string)
      modifies this
      ensures servers == WithoutServer(old(servers), id)
      ensures logs == old(logs) && logIdCounter == old(logIdCounter)
      ensures tools == old(tools) && preferences == old(preferences) && error == old(error)
    {
      servers := WithoutServer(servers, id);
    }

    /** `setTools`. */
    method SetTools(list: seq<Tool>)
      modifies this
      ensures tools == list
      ensures logs == old(logs) && logIdCounter == old(logIdCounter)
      ensures servers == old(servers) && preferences == old(preferences) && error == old(error)
    {
      tools := list;
    }

    /** `addCustomTool`: the tool joins both the tool list and the saved custom tools. */
    method AddCustomTool(tool: Tool)
      modifies this
      ensures tools == old(tools) + [tool]
      ensures preferences == old(preferences).(customTools := old(preferences).customTools + [tool])
      ensures logs == old(logs) && logIdCounter == old(logIdCounter)
      ensures servers == old(servers) && error == old(error)
    {
      tools := tools + [tool];
      preferences := preferences.(customTools := preferences.customTools + [tool]);
    }

    /** `removeCustomTool`: the id leaves both the tool list and the saved custom tools. */
    method RemoveCustomTool(id: string)
      modifies this
      ensures tools == WithoutTool(old(tools), id)
      ensures preferences == old(preferences).(customTools := WithoutTool(old(preferences).customTools, id))
      ensures logs == old(logs) && logIdCounter == old(logIdCounter)
      ensures servers == old(servers) && error == old(error)
    {
      tools := WithoutTool(tools, id);
      preferences := preferences.(customTools := WithoutTool(preferences.customTools, id));
    }

    /** `setPreferences`: a shallow merge. */
    method SetPreferences(patch: PreferencesPatch)
      modifies this
      ensures preferences == MergePreferences(old(preferences), patch)
      ensures logs == old(logs) && logIdCounter == old(logIdCounter)
      ensures servers == old(servers) && tools == old(tools) && error == old(error)
    {
      preferences := MergePreferences(preferences, patch);
    }

    /** `setError`. */
    method SetError(e: Option<string>)
      modifies this
      ensures error == e
      ensures logs == old(logs) && logIdCounter == old(logIdCounter)
      ensures servers == old(servers) && tools == old(tools) && preferences == old(preferences)
    {
      error := e;
    }
  }
}
