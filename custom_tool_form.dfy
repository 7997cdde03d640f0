/**
 * The custom-tool form (`CustomToolForm`): the descriptor it hands on when submitted.  The id
 * typed by the user is lower-cased and every UTF-16 code unit outside `[a-z0-9-]` becomes `-`;
 * the server key falls back to the format's own name.
 */
module CustomToolForm {
  import opened Wrappers
  import opened Types
  import opened ServerSchema
  import ToolRegistry

  /** The characters an id keeps: `[a-z0-9-]`. */
  predicate IdChar(c: char)
  {
    'a' <= c <= 'z' || '0' <= c <= '9' || c == '-'
  }

  predicate IsId(s: string)
  {
    forall i :: 0 <= i < |s| ==> IdChar(s[i])
  }

  /**
   * `toLowerCase` on one code point, as far as the id can tell: ASCII capitals become small
   * letters, the Kelvin sign becomes `k`, and the capital I with a dot becomes `i` followed by
   * the combining dot.  Every other code point is kept: its lower case, if it has one, lies
   * outside `[a-z0-9-]` just as the code point itself does, so the replacement treats both alike.
   */
  function LowerChar(c: char): (r: string)
    ensures IdChar(c) ==> r == [c]
  {
    if 'A' <= c <= 'Z' then [(c as int + 32) as char]
    else if c == '\U{212A}' then "k"
    else if c == '\U{0130}' then "i\U{0307}"
    else [c]
  }

  /** `s.toLowerCase()`. */
  function Lowered(s: string): (r: string)
    ensures |r| >= |s|
    ensures forall i :: 0 <= i < |r| ==> !('A' <= r[i] <= 'Z')
    decreases |s|
  {
    if s == [] then [] else LowerChar(s[0]) + Lowered(s[1..])
  }

  /**
   * `.replace(/[^a-z0-9-]/g, '-')` on one code point: the pattern has no `u` flag, so it runs
   * over UTF-16 code units and a code point beyond U+FFFF, two units, becomes two dashes.
   */
  function ReplaceChar(c: char): (r: string)
    ensures IsId(r)
    ensures IdChar(c) <==> r == [c]
  {
    if IdChar(c) then [c]
    else if c as int > 0xFFFF then "--"
    else "-"
  }

  /** `s.replace(/[^a-z0-9-]/g, '-')`. */
  function Replaced(s: string): (r: string)
    ensures IsId(r)
    ensures |r| >= |s|
    decreases |s|
  {
    if s == [] then [] else ReplaceChar(s[0]) + Replaced(s[1..])
  }

  /** The id the form submits: `data.id.toLowerCase().replace(/[^a-z0-9-]/g, '-')`. */
  function SanitizeId(id: string): (r: string)
    ensures IsId(r)
    ensures |r| >= |id|
  {
    Replaced(Lowered(id))
  }

  /** A string already made of `[a-z0-9-]` is not touched by the lower-casing. */
  lemma {:induction false} LoweredId(s: string)
    requires IsId(s)
    ensures Lowered(s) == s
    decreases |s|
  {
    if s != [] {
      assert IdChar(s[0]);
      LoweredId(s[1..]);
    }
  }

  /** A string already made of `[a-z0-9-]` is not touched by the replacement. */
  lemma {:induction false} ReplacedId(s: string)
    requires IsId(s)
    ensures Replaced(s) == s
    decreases |s|
  {
    if s != [] {
      assert IdChar(s[0]);
      ReplacedId(s[1..]);
    }
  }

  /** Sanitising an id is idempotent, and an id made of `[a-z0-9-]` is its own sanitised form. */
  lemma SanitizeIdempotent(id: string)
    ensures IsId(id) ==> SanitizeId(id) == id
    ensures SanitizeId(SanitizeId(id)) == SanitizeId(id)
  {
    if IsId(id) {
      LoweredId(id);
      ReplacedId(id);
    }
    LoweredId(SanitizeId(id));
    ReplacedId(SanitizeId(id));
  }

  /** An ASCII letter, digit or dash. */
  predicate AsciiIdChar(c: char)
  {
    IdChar(c) || 'A' <= c <= 'Z'
  }

  /** The small letter of an ASCII capital; every other character is kept. */
  function AsciiLower(c: char): char
  {
    if 'A' <= c <= 'Z' then (c as int + 32) as char else c
  }

  /** An id of ASCII letters, digits and dashes keeps its length, and each capital becomes its small letter. */
  lemma {:induction false} SanitizeAscii(id: string)
    requires forall i :: 0 <= i < |id| ==> AsciiIdChar(id[i])
    ensures |SanitizeId(id)| == |id|
    ensures forall i :: 0 <= i < |id| ==> SanitizeId(id)[i] == AsciiLower(id[i])
    decreases |id|
  {
    if id != [] {
      var c := id[0];
      var tail := id[1..];
      assert forall i :: 0 <= i < |tail| ==> AsciiIdChar(tail[i]) by {
        forall i | 0 <= i < |tail| ensures AsciiIdChar(tail[i]) {
          assert tail[i] == id[i + 1];
        }
      }
      SanitizeAscii(tail);
      assert Lowered(id) == [AsciiLower(c)] + Lowered(tail);
      assert IdChar(AsciiLower(c));
      assert Replaced(Lowered(id)) == [AsciiLower(c)] + Replaced(Lowered(tail));
    }
  }

  /** `data.serverKey || data.configFormat`. */
  function ServerKeyOf(data: CustomToolData): (key: string)
    ensures data.serverKey.Some? && data.serverKey.value != "" ==> key == data.serverKey.value
    ensures data.serverKey.None? || data.serverKey.value == "" ==>
      key == data.configFormat.Name() && ParseConfigFormat(key) == Some(data.configFormat)
  {
    ParseConfigFormatName(data.configFormat);
    if data.serverKey.Some? && data.serverKey.value != "" then data.serverKey.value else data.configFormat.Name()
  }

  /** The descriptor `onFormSubmit` builds; `now` stands for `new Date().toISOString()`. */
  function CustomToolOf(data: CustomToolData, now: string): Tool
  {
    Tool(SanitizeId(data.id), data.name, None, data.configPath, data.configFormat, Some(ServerKeyOf(data)),
      ToolRegistry.NO_CAPABILITIES, false, None, Some(now))
  }

  /**
   * The descriptor is a custom tool stamped with `now`, its id holds only `[a-z0-9-]`, and its
   * name, path and format are the ones typed.
   */
  lemma CustomToolShape(data: CustomToolData, now: string)
    ensures var t := CustomToolOf(data, now);
      && IsCustomTool(t) && t.addedAt == Some(now) && IsId(t.id) && |t.id| >= |data.id|
      && t.name == data.name && t.configPath == data.configPath && t.configFormat == data.configFormat
  {
  }

  /**
   * With a server key given, the form builds what the registry's `createCustomTool` builds
   * once its precedence is fixed; without one, the form falls back to the format's own name.
   */
  lemma CustomToolAgreesWithRegistry(data: CustomToolData, now: string)
    ensures data.serverKey.Some? && data.serverKey.value != "" ==>
      CustomToolOf(data, now) == ToolRegistry.CreateCustomToolIntended(SanitizeId(data.id), data.name,
        data.configPath, data.configFormat, data.serverKey, now)
    ensures data.serverKey.None? || data.serverKey.value == "" ==>
      CustomToolOf(data, now).serverKey == Some(ToolRegistry.GetServerKeyForFormat(data.configFormat))
  {
  }

  /**
   * `handleSubmit(onFormSubmit)`: the schema checks the typed values and, if they pass, the
   * descriptor is built from them.
   */
  function Submit(i: CustomToolInput, now: string): (r: Option<Tool>)
    ensures r.Some? <==> (|i.id| >= 1 && |i.name| >= 1 && |i.configPath| >= 1
      && i.configFormat in {"mcpServers", "servers", "mcp.servers"})
    ensures r.Some? ==> (|r.value.id| >= 1 && IsId(r.value.id) && r.value.name == i.name
      && r.value.configPath == i.configPath && r.value.configFormat.Name() == i.configFormat)
  {
    match ParseCustomTool(i)
    case None => None
    case Some(data) => Some(CustomToolOf(data, now))
  }
}
