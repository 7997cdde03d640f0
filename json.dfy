/**
 * JSON values as defined in section 3 of RFC 8259: an object, array, number, string, or one of
 * the literal names `false`, `null` and `true`.  A number is kept as its decimal mantissa and
 * exponent (mantissa * 10^exponent); objects keep their members in order (see Records).
 */
module Json {
  import opened Wrappers
  import opened Records

  datatype Json =
    | Null
    | Bool(b: bool)
    | Number(mantissa: int, exponent: int)
    | String(str: string)
    | Array(items: seq<Json>)
    | Object(members: Record<Json>)

  type Members = Record<Json>

  /**
   * The own members a spread `{...v}` copies out of a document: those of an object, none for
   * `null`, booleans and numbers.  Strings and arrays are treated like the other non-objects.
   */
  function MembersOf(v: Json): (m: Members)
    ensures v.Object? ==> m == v.members
    ensures !v.Object? ==> m == []
  {
    if v.Object? then v.members else []
  }

  /** The member `k` of `v` when `v` is an object that has one (`k in v` then `v[k]`). */
  function Field(v: Json, k: string): (o: Option<Json>)
    ensures o.Some? <==> v.Object? && k in Keys(v.members)
  {
    if v.Object? then Get(v.members, k) else None
  }

  /** A field read as a string; a missing field or one of another JSON type is absent. */
  function StringField(v: Json, k: string): Option<string>
  {
    match Field(v, k)
    case Some(String(s)) => Some(s)
    case _ => None
  }

  function BoolField(v: Json, k: string): Option<bool>
  {
    match Field(v, k)
    case Some(Bool(b)) => Some(b)
    case _ => None
  }

  predicate AllStrings(items: seq<Json>)
  {
    forall i :: 0 <= i < |items| ==> items[i].String?
  }

  /** A JSON array of strings as a `string[]`. */
  function Strings(items: seq<Json>): (ss: seq<string>)
    requires AllStrings(items)
    ensures |ss| == |items|
    ensures forall i :: 0 <= i < |items| ==> items[i] == String(ss[i])
  {
    if items == [] then [] else [items[0].str] + Strings(items[1..])
  }

  function StringArray(ss: seq<string>): (items: seq<Json>)
    ensures AllStrings(items) && Strings(items) == ss
  {
    if ss == [] then []
    else
      var rest := StringArray(ss[1..]);
      assert AllStrings([String(ss[0])] + rest) by {
        forall i | 0 <= i < 1 + |rest| ensures ([String(ss[0])] + rest)[i].String? {
          if i > 0 { assert ([String(ss[0])] + rest)[i] == rest[i - 1]; }
        }
      }
      [String(ss[0])] + rest
  }

  /** A field read as a `string[]`: present only when it is an array whose items are all strings. */
  function StringsField(v: Json, k: string): Option<seq<string>>
  {
    match Field(v, k)
    case Some(Array(items)) => if AllStrings(items) then Some(Strings(items)) else None
    case _ => None
  }

  predicate AllStringValues(m: Members)
  {
    forall i :: 0 <= i < |m| ==> m[i].1.String?
  }

  /** A JSON object of strings as a `Record<string, string>`. */
  function StringRecord(m: Members): (r: Record<string>)
    requires AllStringValues(m)
    ensures |r| == |m|
    ensures forall i :: 0 <= i < |m| ==> m[i] == (r[i].0, String(r[i].1))
  {
    if m == [] then [] else [(m[0].0, m[0].1.str)] + StringRecord(m[1..])
  }

  function StringRecordJson(r: Record<string>): (m: Members)
    ensures AllStringValues(m) && StringRecord(m) == r
  {
    if r == [] then []
    else
      var rest := StringRecordJson(r[1..]);
      assert AllStringValues([(r[0].0, String(r[0].1))] + rest) by {
        forall i | 0 <= i < 1 + |rest| ensures ([(r[0].0, String(r[0].1))] + rest)[i].1.String? {
          if i > 0 { assert ([(r[0].0, String(r[0].1))] + rest)[i] == rest[i - 1]; }
        }
      }
      [(r[0].0, String(r[0].1))] + rest
  }

  /** A field read as a `Record<string, string>`: present only for an object of strings. */
  function StringRecordField(v: Json, k: string): Option<Record<string>>
  {
    match Field(v, k)
    case Some(Object(m)) => if AllStringValues(m) then Some(StringRecord(m)) else None
    case _ => None
  }
}
