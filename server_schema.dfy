/**
 * The server form's rules: the quote-aware splitting of the argument line into `args`, its
 * inverse used to show `args` in the form, and the acceptance rules of the server form and the
 * custom-tool form.
 */
module ServerSchema {
  import opened Wrappers
  import opened Strings
  import opened Types

  // ---------------------------------------------------------------------------------------
  // parseArgs: a character loop over `current`, `inQuotes` and `quoteChar`.

  /** The tokenizer's variables after some prefix of the input. */
  datatype Tokenizer = Tokenizer(args: seq<string>, current: string, inQuotes: bool, quoteChar: string)

  const Start: Tokenizer := Tokenizer([], "", false, "")

  predicate IsQuote(c: char)
  {
    c == '"' || c == '\''
  }

  /** `current` is pushed, trimmed, when it holds more than white space. */
  function Flush(args: seq<string>, current: string): seq<string>
  {
    if Trim(current) != "" then args + [Trim(current)] else args
  }

  /** One iteration of the loop body. */
  function Step(t: Tokenizer, c: char): Tokenizer
  {
    if !t.inQuotes && IsQuote(c) then t.(inQuotes := true, quoteChar := [c])
    else if t.inQuotes && [c] == t.quoteChar then t.(inQuotes := false, quoteChar := "")
    else if !t.inQuotes && c == ' ' then Tokenizer(Flush(t.args, t.current), "", t.inQuotes, t.quoteChar)
    else t.(current := t.current + [c])
  }

  /** The loop run over all of `s`. */
  function Run(t: Tokenizer, s: string): Tokenizer
  {
    if s == [] then t else Step(Run(t, s[..|s| - 1]), s[|s| - 1])
  }

  /** What `parseArgs` returns. */
  function Args(s: string): seq<string>
  {
    if Trim(s) == "" then [] else Flush(Run(Start, s).args, Run(Start, s).current)
  }

  /** `parseArgs`. */
  method ParseArgs(argsString: string) returns (args: seq<string>)
    ensures args == Args(argsString)
  {
    if Trim(argsString) == "" {
      return [];
    }
    var current;
    args, current := Tokenize(argsString);
    if Trim(current) != "" {
      args := args + [Trim(current)];
    }
  }

  /** The character loop of `parseArgs`: the pushed arguments and the pending `current` at the end of the line. */
  method Tokenize(argsString: string) returns (args: seq<string>, current: string)
    ensures Run(Start, argsString).args == args && Run(Start, argsString).current == current
  {
    args := [];
    current := "";
    var inQuotes := false;
    var quoteChar := "";
    var i := 0;
    while i < |argsString|
      invariant 0 <= i <= |argsString|
      invariant Tokenizer(args, current, inQuotes, quoteChar) == Run(Start, argsString[..i])
    {
      var c := argsString[i];
      ghost var before := Tokenizer(args, current, inQuotes, quoteChar);
      RunNext(argsString, i);
      if !inQuotes && (c == '"' || c == '\'') {
        inQuotes := true;
        quoteChar := [c];
      } else if inQuotes && [c] == quoteChar {
        inQuotes := false;
        quoteChar := "";
      } else if !inQuotes && c == ' ' {
        if Trim(current) != "" {
          args := args + [Trim(current)];
        }
        current := "";
      } else {
        current := current + [c];
      }
      assert Tokenizer(args, current, inQuotes, quoteChar) == Step(before, c);
      i := i + 1;
    }
    assert argsString[..i] == argsString;
  }

  lemma RunNext(s: string, i: nat)
    requires i < |s|
    ensures Run(Start, s[..i + 1]) == Step(Run(Start, s[..i]), s[i])
  {
    assert s[..i + 1][..i] == s[..i];
  }

  lemma {:induction false} RunConcat(t: Tokenizer, a: string, b: string)
    ensures Run(t, a + b) == Run(Run(t, a), b)
    decreases |b|
  {
    if b == [] {
      assert a + b == a;
    } else {
      var b' := b[..|b| - 1];
      assert (a + b)[..|a + b| - 1] == a + b';
      assert (a + b)[|a + b| - 1] == b[|b| - 1];
      RunConcat(t, a, b');
    }
  }

  lemma RunOne(t: Tokenizer, c: char)
    ensures Run(t, [c]) == Step(t, c)
  {
    assert [c][..0] == [];
  }

  /** A blank argument line has no arguments. */
  lemma ArgsBlank(s: string)
    requires IsBlank(s)
    ensures Args(s) == []
  {
    TrimEmptyIffBlank(s);
  }

  /** A non-empty string with no white space at either end (so `Trim(arg) == arg`). */
  predicate Token(arg: string)
  {
    arg != "" && !IsWhite(arg[0]) && !IsWhite(arg[|arg| - 1])
  }

  predicate AllTokens(args: seq<string>)
  {
    forall i :: 0 <= i < |args| ==> Token(args[i])
  }

  lemma FlushTokens(args: seq<string>, current: string)
    requires AllTokens(args)
    ensures AllTokens(Flush(args, current))
  {
    var x := Trim(current);
    if x != "" {
      assert Token(x);
      var r := args + [x];
      forall i | 0 <= i < |r| ensures Token(r[i]) {
        if i < |args| { assert r[i] == args[i]; } else { assert r[i] == x; }
      }
    }
  }

  lemma {:induction false} RunTokens(t: Tokenizer, s: string)
    requires AllTokens(t.args)
    ensures AllTokens(Run(t, s).args)
  {
    if s != [] {
      RunTokens(t, s[..|s| - 1]);
      FlushTokens(Run(t, s[..|s| - 1]).args, Run(t, s[..|s| - 1]).current);
    }
  }

  /** Every argument is non-empty and has no white space at either end. */
  lemma ArgsAreTokens(s: string)
    ensures AllTokens(Args(s))
  {
    RunTokens(Start, s);
    FlushTokens(Run(Start, s).args, Run(Start, s).current);
  }

  predicate Outside(t: Tokenizer)
  {
    !t.inQuotes && t.quoteChar == ""
  }

  /** Outside quotes, characters other than quotes and spaces are copied into the current token. */
  lemma {:induction false} RunPlain(t: Tokenizer, w: string)
    requires Outside(t)
    requires forall i :: 0 <= i < |w| ==> w[i] != ' ' && !IsQuote(w[i])
    ensures Run(t, w) == t.(current := t.current + w)
  {
    if w != [] {
      RunPlain(t, w[..|w| - 1]);
      assert t.current + w == t.current + w[..|w| - 1] + [w[|w| - 1]];
    }
  }

  /** Inside quotes, every other character, spaces and the other quote kind included, is copied. */
  lemma {:induction false} RunQuoted(t: Tokenizer, q: char, w: string)
    requires t.inQuotes && t.quoteChar == [q]
    requires q !in w
    ensures Run(t, w) == t.(current := t.current + w)
  {
    if w != [] {
      RunQuoted(t, q, w[..|w| - 1]);
      assert t.current + w == t.current + w[..|w| - 1] + [w[|w| - 1]];
    }
  }

  /** A quoted stretch contributes its inside to the current token; both quotes are dropped. */
  lemma QuotedStretch(t: Tokenizer, q: char, w: string)
    requires Outside(t) && IsQuote(q) && q !in w
    ensures Run(t, [q] + w + [q]) == t.(current := t.current + w)
  {
    var t1 := t.(inQuotes := true, quoteChar := [q]);
    RunOne(t, q);
    RunConcat(t, [q], w);
    RunQuoted(t1, q, w);
    RunConcat(t, [q] + w, [q]);
    RunOne(t1.(current := t.current + w), q);
  }

  /** `parseArgs` of a line that is not blank, from the loop's final state. */
  lemma ArgsFromRun(s: string, t: Tokenizer)
    requires !IsBlank(s) && Run(Start, s) == t
    ensures Args(s) == Flush(t.args, t.current)
  {
    TrimEmptyIffBlank(s);
  }

  lemma RunOpenQuote(q: char, w: string)
    requires IsQuote(q) && q !in w
    ensures Run(Start, [q] + w) == Tokenizer([], w, true, [q])
  {
    var t1 := Start.(inQuotes := true, quoteChar := [q]);
    RunOne(Start, q);
    RunConcat(Start, [q], w);
    RunQuoted(t1, q, w);
    assert "" + w == w;
  }

  /** An unclosed quote runs to the end of the line: the rest becomes the last argument. */
  lemma UnclosedQuote(q: char, w: string)
    requires IsQuote(q) && q !in w && !IsBlank(w)
    ensures Args([q] + w) == [Trim(w)]
  {
    var s := [q] + w;
    RunOpenQuote(q, w);
    assert s[0] == q && !IsWhite(q);
    ArgsFromRun(s, Tokenizer([], w, true, [q]));
    TrimEmptyIffBlank(w);
    assert Flush([], w) == [Trim(w)];
  }

  /** A space outside quotes ends the current token. */
  lemma SpaceSplits(t: Tokenizer)
    requires Outside(t)
    ensures Run(t, " ") == Tokenizer(Flush(t.args, t.current), "", false, "")
  {
    RunOne(t, ' ');
  }

  // ---------------------------------------------------------------------------------------
  // stringifyArgs.

  /** `arg.replace(/"/g, '\\"')`. */
  function EscapeQuotes(arg: string): (r: string)
    ensures '"' !in arg ==> r == arg
    ensures |r| >= |arg| && (r == [] <==> arg == [])
  {
    if arg == [] then []
    else (if arg[0] == '"' then "\\\"" else [arg[0]]) + EscapeQuotes(arg[1..])
  }

  /** On one character: a quote becomes backslash-quote, any other character is copied. */
  lemma EscapeQuotesOne(c: char)
    ensures EscapeQuotes([c]) == if c == '"' then "\\\"" else [c]
  {
    assert [c][1..] == [];
  }

  /** The escaping works character by character: it distributes over concatenation. */
  lemma {:induction false} EscapeQuotesConcat(a: string, b: string)
    ensures EscapeQuotes(a + b) == EscapeQuotes(a) + EscapeQuotes(b)
    decreases |a|
  {
    if a == [] {
      assert a + b == b;
    } else {
      assert (a + b)[0] == a[0] && (a + b)[1..] == a[1..] + b;
      EscapeQuotesConcat(a[1..], b);
    }
  }

  /** Reading `\"` as `"`, left to right; every other character is copied. */
  function Unescape(s: string): string
    decreases |s|
  {
    if |s| >= 2 && s[0] == '\\' && s[1] == '"' then "\"" + Unescape(s[2..])
    else if s == [] then []
    else [s[0]] + Unescape(s[1..])
  }

  /** The escaped text never starts with a bare quote. */
  lemma EscapedHead(arg: string)
    ensures EscapeQuotes(arg) == [] || EscapeQuotes(arg)[0] != '"'
  {
  }

  /** Undoing the escaping gives the argument back, so no two arguments escape alike. */
  lemma {:induction false} UnescapeEscape(arg: string)
    ensures Unescape(EscapeQuotes(arg)) == arg
    decreases |arg|
  {
    if arg != [] {
      var e := EscapeQuotes(arg[1..]);
      UnescapeEscape(arg[1..]);
      if arg[0] == '"' {
        assert EscapeQuotes(arg) == "\\\"" + e;
        assert ("\\\"" + e)[2..] == e;
      } else {
        assert EscapeQuotes(arg) == [arg[0]] + e;
        EscapedHead(arg[1..]);
        assert ([arg[0]] + e)[1..] == e;
      }
    }
  }

  predicate NeedsQuoting(arg: string)
  {
    ' ' in arg || '"' in arg || '\'' in arg
  }

  /** One argument as `stringifyArgs` writes it. */
  function QuoteArg(arg: string): (r: string)
    ensures !NeedsQuoting(arg) ==> r == arg
    ensures NeedsQuoting(arg) ==> r == "\"" + EscapeQuotes(arg) + "\""
  {
    if NeedsQuoting(arg) then "\"" + EscapeQuotes(arg) + "\"" else arg
  }

  function QuoteArgs(args: seq<string>): (r: seq<string>)
    ensures |r| == |args|
    ensures forall i :: 0 <= i < |args| ==> r[i] == QuoteArg(args[i])
  {
    if args == [] then [] else [QuoteArg(args[0])] + QuoteArgs(args[1..])
  }

  /** `stringifyArgs`. */
  function StringifyArgs(args: seq<string>): string
  {
    Join(QuoteArgs(args), " ")
  }

  /** The arguments `stringifyArgs` and `parseArgs` agree on. */
  predicate RoundTrips(arg: string)
  {
    Token(arg) && '"' !in arg
  }

  /** A written argument, read back, becomes the current token. */
  lemma RunQuoteArg(t: Tokenizer, arg: string)
    requires Outside(t) && RoundTrips(arg)
    ensures Run(t, QuoteArg(arg)) == t.(current := t.current + arg)
  {
    if NeedsQuoting(arg) {
      assert EscapeQuotes(arg) == arg;
      QuotedStretch(t, '"', arg);
    } else {
      RunPlain(t, arg);
    }
  }

  lemma TokenTrim(arg: string)
    requires Token(arg)
    ensures Trim(arg) == arg
  {
    TrimNoEdges(arg);
  }

  lemma StringifyArgsCons(args: seq<string>)
    requires |args| > 1
    ensures StringifyArgs(args) == QuoteArg(args[0]) + " " + StringifyArgs(args[1..])
  {
    assert QuoteArgs(args)[1..] == QuoteArgs(args[1..]);
  }

  /** One written argument and its separating space, read back, add that argument. */
  lemma RunArgAndSpace(acc: seq<string>, arg: string, rest: string)
    requires RoundTrips(arg)
    ensures Run(Tokenizer(acc, "", false, ""), QuoteArg(arg) + " " + rest)
         == Run(Tokenizer(acc + [arg], "", false, ""), rest)
  {
    var t := Tokenizer(acc, "", false, "");
    var t1 := t.(current := arg);
    RunQuoteArg(t, arg);
    assert "" + arg == arg;
    assert QuoteArg(arg) + " " + rest == QuoteArg(arg) + (" " + rest);
    RunConcat(t, QuoteArg(arg), " " + rest);
    RunConcat(t1, " ", rest);
    SpaceSplits(t1);
    TokenTrim(arg);
  }

  lemma ShiftPrefix<T>(acc: seq<T>, s: seq<T>)
    requires |s| > 1
    ensures acc + [s[0]] + s[1..][..|s| - 2] == acc + s[..|s| - 1]
  {
  }

  lemma SplitLast<T>(acc: seq<T>, s: seq<T>)
    requires |s| > 0
    ensures acc + s[..|s| - 1] + [s[|s| - 1]] == acc + s
  {
  }

  /** Reading a written argument list from a state with no pending token. */
  lemma {:induction false} RunStringified(acc: seq<string>, args: seq<string>)
    requires |args| > 0
    requires forall i :: 0 <= i < |args| ==> RoundTrips(args[i])
    ensures Run(Tokenizer(acc, "", false, ""), StringifyArgs(args))
         == Tokenizer(acc + args[..|args| - 1], args[|args| - 1], false, "")
    decreases |args|
  {
    if |args| == 1 {
      assert StringifyArgs(args) == QuoteArg(args[0]);
      RunQuoteArg(Tokenizer(acc, "", false, ""), args[0]);
      assert "" + args[0] == args[0];
      assert args[..0] == [];
    } else {
      var rest := args[1..];
      StringifyArgsCons(args);
      RunArgAndSpace(acc, args[0], StringifyArgs(rest));
      assert forall i :: 0 <= i < |rest| ==> RoundTrips(rest[i]) by {
        forall i | 0 <= i < |rest| ensures RoundTrips(rest[i]) { assert rest[i] == args[i + 1]; }
      }
      RunStringified(acc + [args[0]], rest);
      ShiftPrefix(acc, args);
    }
  }

  lemma StringifiedNotBlank(args: seq<string>)
    requires |args| > 0 && RoundTrips(args[0])
    ensures !IsBlank(StringifyArgs(args))
  {
    var q := QuoteArgs(args);
    var s := StringifyArgs(args);
    var first := QuoteArg(args[0]);
    assert q[0] == first;
    if |args| > 1 {
      assert q[1..] == QuoteArgs(args[1..]);
      assert s == first + " " + StringifyArgs(args[1..]);
    }
    assert s[..|first|] == first;
    var k := if NeedsQuoting(args[0]) then 1 else 0;
    assert EscapeQuotes(args[0]) == args[0];
    assert first[k] == args[0][0];
    assert s[k] == args[0][0];
  }

  /**
   * `parseArgs` undoes `stringifyArgs` for arguments that are non-empty, have no white space at
   * either end and contain no double quote: the form writes `args` with one and reads it with
   * the other.
   */
  lemma ArgsStringifyArgs(args: seq<string>)
    requires forall i :: 0 <= i < |args| ==> RoundTrips(args[i])
    ensures Args(StringifyArgs(args)) == args
  {
    if args == [] {
      assert StringifyArgs(args) == "";
    } else {
      var last := args[|args| - 1];
      var s := StringifyArgs(args);
      var front: seq<string> := [] + args[..|args| - 1];
      StringifiedNotBlank(args);
      RunStringified([], args);
      ArgsFromRun(s, Tokenizer(front, last, false, ""));
      assert Args(s) == Flush(front, last);
      assert RoundTrips(last);
      TokenTrim(last);
      assert Flush(front, last) == front + [last];
      SplitLast([], args);
    }
  }

  // ---------------------------------------------------------------------------------------
  // The server form schema.

  /** `\w`: an ASCII letter, digit or underscore. */
  predicate IsWordChar(c: char)
  {
    'a' <= c <= 'z' || 'A' <= c <= 'Z' || '0' <= c <= '9' || c == '_'
  }

  /** `/^[\w\-. ]+$/`. */
  predicate NameChars(name: string)
  {
    |name| >= 1 && forall i :: 0 <= i < |name| ==> IsWordChar(name[i]) || name[i] in {'-', '.', ' '}
  }

  /** One row of the environment editor. */
  datatype EnvRow = EnvRow(key: string, value: string)

  /** The raw values the server form submits to its schema. */
  datatype ServerFormInput = ServerFormInput(
    name: string,
    command: string,
    args: Option<string>,
    env: Option<seq<EnvRow>>,
    cwd: Option<string>,
    transportType: Option<Transport>,
    url: Option<string>)

  /** `ServerFormData`: the schema's output, with its defaults filled in. */
  datatype ServerFormData = ServerFormData(
    name: string,
    command: string,
    args: string,
    env: seq<EnvRow>,
    cwd: Option<string>,
    transportType: Transport,
    url: Option<string>)

  predicate NameRule(name: string)
  {
    1 <= |name| <= 100 && NameChars(name)
  }

  /** The `url` refinement: absent, empty, or an `http://` or `https://` address. */
  predicate UrlRule(url: Option<string>)
  {
    url.None? || url.value == "" || StartsWith(url.value, "http://") || StartsWith(url.value, "https://")
  }

  /** The object-level refinement: HTTP needs a URL that is not blank. */
  predicate HttpRule(transport: Transport, url: Option<string>)
  {
    transport != Http || (url.Some? && url.value != "" && Trim(url.value) != "")
  }

  predicate EnvRowsRule(rows: seq<EnvRow>)
  {
    forall i :: 0 <= i < |rows| ==> |rows[i].key| >= 1
  }

  /** `serverFormSchema.safeParse`: the parsed data, or `None` when a rule fails. */
  function ParseServerForm(i: ServerFormInput): (r: Option<ServerFormData>)
    ensures r.Some? <==>
      (NameRule(i.name) && |i.command| >= 1 && EnvRowsRule(i.env.GetOr([])) && UrlRule(i.url)
      && HttpRule(i.transportType.GetOr(Stdio), i.url))
    ensures r.Some? ==> (r.value.name == i.name && r.value.command == i.command
      && r.value.args == i.args.GetOr("") && r.value.env == i.env.GetOr([]) && r.value.cwd == i.cwd
      && r.value.transportType == i.transportType.GetOr(Stdio) && r.value.url == i.url)
  {
    var transport := i.transportType.GetOr(Stdio);
    var env := i.env.GetOr([]);
    if NameRule(i.name) && |i.command| >= 1 && EnvRowsRule(env) && UrlRule(i.url) && HttpRule(transport, i.url)
    then Some(ServerFormData(i.name, i.command, i.args.GetOr(""), env, i.cwd, transport, i.url))
    else None
  }

  /** A name with a path separator is refused. */
  lemma SlashNameRejected(i: ServerFormInput, k: nat)
    requires k < |i.name| && i.name[k] == '/'
    ensures ParseServerForm(i).None?
  {
  }

  /** `transportType` defaults to stdio, and a stdio server needs no URL. */
  lemma StdioNeedsNoUrl(i: ServerFormInput)
    requires i.transportType.None? && i.url.None?
    requires NameRule(i.name) && |i.command| >= 1 && EnvRowsRule(i.env.GetOr([]))
    ensures ParseServerForm(i).Some? && ParseServerForm(i).value.transportType == Stdio
  {
  }

  /** An accepted name is 1 to 100 characters long. */
  lemma AcceptedNameLength(i: ServerFormInput)
    requires ParseServerForm(i).Some?
    ensures 1 <= |i.name| <= 100
  {
  }

  // ---------------------------------------------------------------------------------------
  // The custom-tool form schema.

  datatype CustomToolInput = CustomToolInput(
    id: string,
    name: string,
    configPath: string,
    configFormat: string,
    serverKey: Option<string>)

  datatype CustomToolData = CustomToolData(
    id: string,
    name: string,
    configPath: string,
    configFormat: ConfigFormat,
    serverKey: Option<string>)

  /** The enumeration `['mcpServers', 'servers', 'mcp.servers']`. */
  function ParseConfigFormat(s: string): (f: Option<ConfigFormat>)
    ensures f.Some? ==> f.value.Name() == s
    ensures f.None? ==> s !in {"mcpServers", "servers", "mcp.servers"}
  {
    if s == "mcpServers" then Some(McpServersFormat)
    else if s == "servers" then Some(ServersFormat)
    else if s == "mcp.servers" then Some(McpDotServersFormat)
    else None
  }

  lemma ParseConfigFormatName(f: ConfigFormat)
    ensures ParseConfigFormat(f.Name()) == Some(f)
  {
  }

  /** `customToolSchema.safeParse`. */
  function ParseCustomTool(i: CustomToolInput): (r: Option<CustomToolData>)
    ensures r.Some? <==> (|i.id| >= 1 && |i.name| >= 1 && |i.configPath| >= 1
      && i.configFormat in {"mcpServers", "servers", "mcp.servers"})
    ensures r.Some? ==> (r.value.id == i.id && r.value.name == i.name
      && r.value.configPath == i.configPath && r.value.configFormat.Name() == i.configFormat
      && r.value.serverKey == i.serverKey)
  {
    var f := ParseConfigFormat(i.configFormat);
    if |i.id| >= 1 && |i.name| >= 1 && |i.configPath| >= 1 && f.Some?
    then Some(CustomToolData(i.id, i.name, i.configPath, f.value, i.serverKey))
    else None
  }
}
