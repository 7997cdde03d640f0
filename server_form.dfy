/**
 * The server form (`ServerForm`): the values it shows for a server being edited, the
 * enabled-tools selection it keeps while open, and the server record it hands on when
 * submitted.  The submitted values are the schema's output (`ServerFormData`).
 */
module ServerForm {
  import opened Wrappers
  import opened Records
  import opened Strings
  import opened Lists
  import opened Types
  import opened ServerSchema

  // ---------------------------------------------------------------------------------------
  // The environment rows.

  /**
   * The record the `forEach` fills, for any normalisation `norm` of the keys: for each row in
   * turn whose normalised key is not empty, `envRecord[norm(key)] = value`.  The form's
   * normalisation is `trim`; the properties below hold for every `norm` they name.
   */
  function Fill(rows: seq<EnvRow>, norm: string -> string): Env
    decreases |rows|
  {
    if rows == [] then []
    else
      var env := Fill(rows[..|rows| - 1], norm);
      var key := norm(rows[|rows| - 1].key);
      if key != "" then Put(env, key, rows[|rows| - 1].value) else env
  }

  /** Some row's key normalises to `k`. */
  predicate RowKey(rows: seq<EnvRow>, norm: string -> string, k: string)
  {
    exists i :: 0 <= i < |rows| && norm(rows[i].key) == k
  }

  /** The rows of a prefix plus one more row. */
  lemma RowKeySnoc(rows: seq<EnvRow>, norm: string -> string, k: string)
    requires rows != []
    ensures RowKey(rows, norm, k) <==> RowKey(rows[..|rows| - 1], norm, k) || norm(rows[|rows| - 1].key) == k
  {
    var init := rows[..|rows| - 1];
    if RowKey(rows, norm, k) {
      var i :| 0 <= i < |rows| && norm(rows[i].key) == k;
      if i < |init| {
        assert init[i] == rows[i];
      }
    }
    if RowKey(init, norm, k) {
      var i :| 0 <= i < |init| && norm(init[i].key) == k;
      assert rows[i] == init[i];
    }
  }

  /** The record holds exactly the normalised keys of the rows that are not empty. */
  lemma {:induction false} FillKeys(rows: seq<EnvRow>, norm: string -> string)
    ensures forall k :: k in Keys(Fill(rows, norm)) <==> k != "" && RowKey(rows, norm, k)
    decreases |rows|
  {
    if rows != [] {
      var init := rows[..|rows| - 1];
      var row := rows[|rows| - 1];
      FillKeys(init, norm);
      if norm(row.key) != "" {
        KeysPut(Fill(init, norm), norm(row.key), row.value);
      }
      forall k ensures RowKey(rows, norm, k) <==> RowKey(init, norm, k) || norm(row.key) == k {
        RowKeySnoc(rows, norm, k);
      }
    }
  }

  /** With an idempotent normalisation, no key is there twice and every key is already normal. */
  lemma {:induction false} FillClean(rows: seq<EnvRow>, norm: string -> string)
    requires forall x :: norm(norm(x)) == norm(x)
    ensures UniqueKeys(Fill(rows, norm))
    ensures forall k :: k in Keys(Fill(rows, norm)) ==> k != "" && norm(k) == k
    decreases |rows|
  {
    if rows != [] {
      var init := rows[..|rows| - 1];
      var row := rows[|rows| - 1];
      FillClean(init, norm);
      if norm(row.key) != "" {
        PutKeepsUnique(Fill(init, norm), norm(row.key), row.value);
        KeysPut(Fill(init, norm), norm(row.key), row.value);
      }
    }
  }

  /** For a duplicated key the last row wins. */
  lemma {:induction false} FillLastWins(rows: seq<EnvRow>, norm: string -> string, i: nat)
    requires i < |rows| && norm(rows[i].key) != ""
    requires forall j :: i < j < |rows| ==> norm(rows[j].key) != norm(rows[i].key)
    ensures Get(Fill(rows, norm), norm(rows[i].key)) == Some(rows[i].value)
    decreases |rows|
  {
    var init := rows[..|rows| - 1];
    var row := rows[|rows| - 1];
    var k := norm(rows[i].key);
    if i == |rows| - 1 {
      GetPutSame(Fill(init, norm), k, row.value);
    } else {
      assert init[i] == rows[i];
      FillLastWins(init, norm, i);
      if norm(row.key) != "" {
        GetPutOther(Fill(init, norm), norm(row.key), row.value, k);
      }
    }
  }

  /** `Object.entries(env).map(([key, value]) => ({ key, value }))`. */
  function Rows(env: Env): (rows: seq<EnvRow>)
    ensures |rows| == |env| && forall i :: 0 <= i < |env| ==> rows[i] == EnvRow(env[i].0, env[i].1)
  {
    seq(|env|, i requires 0 <= i < |env| => EnvRow(env[i].0, env[i].1))
  }

  /** The rows of a record without its last member. */
  lemma RowsInit(env: Env)
    requires env != []
    ensures Rows(env)[..|env| - 1] == Rows(env[..|env| - 1])
  {
  }

  /** Rows drawn from a record with distinct, non-empty, normal keys fill the same record again. */
  lemma {:induction false} FillRows(env: Env, norm: string -> string)
    requires UniqueKeys(env) && forall k :: k in Keys(env) ==> k != "" && norm(k) == k
    ensures Fill(Rows(env), norm) == env
    decreases |env|
  {
    if env != [] {
      var n := |env|;
      var init := env[..n - 1];
      var k, v := env[n - 1].0, env[n - 1].1;
      assert Keys(env)[n - 1] == k;
      UniqueInit(env);
      RowsInit(env);
      forall x | x in Keys(init) ensures x != "" && norm(x) == x {
        assert x in Keys(env);
      }
      FillRows(init, norm);
      assert Fill(Rows(env), norm) == Put(init, k, v);
      TakeNext(env, n - 1);
      TakeAll(env);
    }
  }

  /** A property name kept by the form: not blank and without white space at either end. */
  predicate CleanKey(k: string)
  {
    k != "" && Trim(k) == k
  }

  /** The form's record: the keys are trimmed. */
  function EnvOf(rows: seq<EnvRow>): Env
  {
    Fill(rows, Trim)
  }

  /** The record holds exactly the trimmed keys of the rows whose key is not blank. */
  lemma EnvKeys(rows: seq<EnvRow>)
    ensures forall k :: k in Keys(EnvOf(rows)) <==> k != "" && RowKey(rows, Trim, k)
  {
    FillKeys(rows, Trim);
  }

  /** No key twice, and every key is clean. */
  lemma EnvClean(rows: seq<EnvRow>)
    ensures UniqueKeys(EnvOf(rows))
    ensures forall k :: k in Keys(EnvOf(rows)) ==> CleanKey(k)
  {
    forall x ensures Trim(Trim(x)) == Trim(x) {
      TrimIdempotent(x);
    }
    FillClean(rows, Trim);
  }

  /** For a duplicated key the last row wins. */
  lemma EnvLastWins(rows: seq<EnvRow>, i: nat)
    requires i < |rows| && Trim(rows[i].key) != ""
    requires forall j :: i < j < |rows| ==> Trim(rows[j].key) != Trim(rows[i].key)
    ensures Get(EnvOf(rows), Trim(rows[i].key)) == Some(rows[i].value)
  {
    FillLastWins(rows, Trim, i);
  }

  /** Rows drawn from a record with clean, distinct keys fill the same record again. */
  lemma EnvOfRows(env: Env)
    requires UniqueKeys(env) && forall k :: k in Keys(env) ==> CleanKey(k)
    ensures EnvOf(Rows(env)) == env
  {
    FillRows(env, Trim);
  }

  /** `data.env.forEach(...)` into a fresh `envRecord`. */
  method BuildEnv(rows: seq<EnvRow>) returns (envRecord: Env)
    ensures envRecord == EnvOf(rows)
  {
    envRecord := [];
    var i := 0;
    while i < |rows|
      invariant 0 <= i <= |rows|
      invariant envRecord == EnvOf(rows[..i])
    {
      var row := rows[i];
      TakeNext(rows, i);
      var key := Trim(row.key);
      if key != "" {
        envRecord := Put(envRecord, key, row.value);
      }
      i := i + 1;
    }
    TakeAll(rows);
  }

  /** `Object.keys(envRecord).length > 0 ? envRecord : undefined`. */
  function EnvField(rows: seq<EnvRow>): (r: Option<Env>)
    ensures r.Some? ==> r.value != [] && UniqueKeys(r.value) && forall k :: k in Keys(r.value) ==> CleanKey(k)
  {
    EnvClean(rows);
    var env := EnvOf(rows);
    if |env| > 0 then Some(env) else None
  }

  /** The record is left out exactly when every row's key is blank. */
  lemma EnvFieldNone(rows: seq<EnvRow>)
    ensures EnvField(rows).None? <==> forall i :: 0 <= i < |rows| ==> Trim(rows[i].key) == ""
  {
    EnvKeys(rows);
    var env := EnvOf(rows);
    if |env| > 0 {
      assert Keys(env)[0] in Keys(env);
    } else {
      forall i | 0 <= i < |rows| ensures Trim(rows[i].key) == "" {
        if Trim(rows[i].key) != "" {
          assert RowKey(rows, Trim, Trim(rows[i].key));
        }
      }
    }
  }

  /** `data.cwd?.trim() || undefined`. */
  function CwdField(cwd: Option<string>): (r: Option<string>)
    ensures r.Some? ==> cwd.Some? && r.value == Trim(cwd.value) && r.value != ""
    ensures r.None? ==> cwd.None? || Trim(cwd.value) == ""
  {
    if cwd.Some? then
      var t := Trim(cwd.value);
      if t != "" then Some(t) else None
    else None
  }

  /** A submitted working directory is clean. */
  lemma CwdClean(cwd: Option<string>)
    ensures CwdField(cwd).Some? ==> CleanKey(CwdField(cwd).value)
  {
    if cwd.Some? {
      TrimIdempotent(cwd.value);
    }
  }

  /** The working directory is left out exactly when it is absent or all white space. */
  lemma CwdFieldNone(cwd: Option<string>)
    ensures CwdField(cwd).None? <==> cwd.None? || IsBlank(cwd.value)
  {
    if cwd.Some? {
      TrimEmptyIffBlank(cwd.value);
    }
  }

  // ---------------------------------------------------------------------------------------
  // The enabled-tools selection.

  /** `server?.enabledTools || []`: the selection the form starts with. */
  function InitialSelection(server: Option<McpServer>): seq<string>
  {
    if server.Some? && server.value.enabledTools.Some? then server.value.enabledTools.value else []
  }

  /** `prev.includes(toolId) ? prev.filter(id => id !== toolId) : [...prev, toolId]`. */
  function Toggled(prev: seq<string>, toolId: string): (r: seq<string>)
    ensures toolId in r <==> toolId !in prev
    ensures forall x :: x != toolId ==> (x in r <==> x in prev)
  {
    if toolId in prev then Filter(prev, (id: string) => id != toolId) else prev + [toolId]
  }

  /** Toggling twice restores the selection's members, and the selection itself when the tool was not in it. */
  lemma ToggleTwice(prev: seq<string>, toolId: string)
    ensures forall x :: x in Toggled(Toggled(prev, toolId), toolId) <==> x in prev
    ensures toolId !in prev ==> Toggled(Toggled(prev, toolId), toolId) == prev
  {
    if toolId !in prev {
      var keep := (id: string) => id != toolId;
      FilterConcat(prev, [toolId], keep);
      FilterAll(prev, keep);
      assert Filter([toolId], keep) == [];
    }
  }

  // ---------------------------------------------------------------------------------------
  // Submitting.

  /** The record `onFormSubmit` builds from the schema's output, the edited server and the selection. */
  function FormRecord(data: ServerFormData, server: Option<McpServer>, enabledTools: seq<string>): McpServer
  {
    McpServer(
      if server.Some? then server.value.id else "",
      Trim(data.name),
      Some(Trim(data.command)),
      Args(data.args),
      EnvField(data.env),
      CwdField(data.cwd),
      Some(data.transportType),
      if data.transportType == Http then data.url else None,
      if server.Some? then server.value.toolSettings else None,
      Some(enabledTools),
      None,
      None)
  }

  /** The submitted record keeps the edited server's id and tool settings, the transport and the selection, and has no timestamps. */
  lemma FormRecordKeeps(data: ServerFormData, server: Option<McpServer>, enabledTools: seq<string>)
    ensures var r := FormRecord(data, server, enabledTools);
      && r.id == (if server.Some? then server.value.id else "")
      && r.transportType == Some(data.transportType)
      && (r.url.Some? ==> data.transportType == Http)
      && r.toolSettings == (if server.Some? then server.value.toolSettings else None)
      && r.enabledTools == Some(enabledTools) && r.createdAt.None? && r.updatedAt.None?
  {
  }

  /** The submitted name and command have no white space at either end. */
  lemma FormRecordTrimmed(data: ServerFormData, server: Option<McpServer>, enabledTools: seq<string>)
    ensures Trim(FormRecord(data, server, enabledTools).name) == FormRecord(data, server, enabledTools).name
    ensures FormRecord(data, server, enabledTools).command.Some?
    ensures Trim(FormRecord(data, server, enabledTools).command.value) == FormRecord(data, server, enabledTools).command.value
  {
    TrimIdempotent(data.name);
    TrimIdempotent(data.command);
  }

  /**
   * The values the form shows for a server being edited (the `reset` on opening); a server without
   * a command shows an empty command field.
   */
  function FormValues(s: McpServer): ServerFormData
  {
    ServerFormData(s.name, s.command.GetOr(""), StringifyArgs(s.args), Rows(s.env.GetOr([])), Some(s.cwd.GetOr("")),
      s.transportType.GetOr(Stdio), Some(s.url.GetOr("")))
  }

  /** The servers the form reproduces when opened and submitted unchanged. */
  predicate Canonical(s: McpServer)
  {
    Trim(s.name) == s.name && s.command.Some? && Trim(s.command.value) == s.command.value
    && (forall i :: 0 <= i < |s.args| ==> RoundTrips(s.args[i]))
    && (s.env.None? || (s.env.value != [] && UniqueKeys(s.env.value) && forall k :: k in Keys(s.env.value) ==> CleanKey(k)))
    && (s.cwd.None? || CleanKey(s.cwd.value))
    && s.transportType.Some? && (s.url.Some? <==> s.transportType == Some(Http))
    && s.enabledTools.Some?
  }

  /**
   * Opening a canonical server in the form and submitting it unchanged gives the server back,
   * without its timestamps (the update that follows keeps the stored ones).
   */
  lemma FormRoundTrip(s: McpServer)
    requires Canonical(s)
    ensures FormRecord(FormValues(s), Some(s), InitialSelection(Some(s))) == s.(createdAt := None, updatedAt := None)
  {
    var data := FormValues(s);
    ArgsStringifyArgs(s.args);
    EnvRoundTrip(s.env);
    CwdRoundTrip(s.cwd);
    assert (if data.transportType == Http then data.url else None) == s.url;
  }

  /** The rows shown for a clean record fill it again; no rows give no record. */
  lemma EnvRoundTrip(env: Option<Env>)
    requires env.None? || (env.value != [] && UniqueKeys(env.value) && forall k :: k in Keys(env.value) ==> CleanKey(k))
    ensures EnvField(Rows(env.GetOr([]))) == env
  {
    if env.Some? {
      EnvOfRows(env.value);
    } else {
      assert Rows([]) == [];
    }
  }

  /** A clean working directory is shown and read back unchanged; none is shown as empty and read as none. */
  lemma CwdRoundTrip(cwd: Option<string>)
    requires cwd.None? || CleanKey(cwd.value)
    ensures CwdField(Some(cwd.GetOr(""))) == cwd
  {
  }

  /** The open form: the server being edited (absent when adding) and the selection. */
  class ServerFormState {
    const server: Option<McpServer>
    var enabledTools: seq<string>

    constructor(server: Option<McpServer>)
      ensures this.server == server && enabledTools == InitialSelection(server)
    {
      this.server := server;
      enabledTools := InitialSelection(server);
    }

    /** `toggleTool`. */
    method ToggleTool(toolId: string)
      modifies this
      ensures enabledTools == Toggled(old(enabledTools), toolId)
    {
      if toolId in enabledTools {
        enabledTools := Filter(enabledTools, (id: string) => id != toolId);
      } else {
        enabledTools := enabledTools + [toolId];
      }
    }

    /** `onFormSubmit`: the record handed to the caller. */
    method OnFormSubmit(data: ServerFormData) returns (serverData: McpServer)
      ensures serverData == FormRecord(data, server, enabledTools)
    {
      var envRecord := BuildEnv(data.env);
      var args := ParseArgs(data.args);
      var cwd := None;
      if data.cwd.Some? {
        var trimmed := Trim(data.cwd.value);
        if trimmed != "" {
          cwd := Some(trimmed);
        }
      }
      assert cwd == CwdField(data.cwd);
      serverData := McpServer(
        if server.Some? then server.value.id else "",
        Trim(data.name),
        Some(Trim(data.command)),
        args,
        if |envRecord| > 0 then Some(envRecord) else None,
        cwd,
        Some(data.transportType),
        if data.transportType == Http then data.url else None,
        if server.Some? then server.value.toolSettings else None,
        Some(enabledTools),
        None,
        None);
    }
  }
}
