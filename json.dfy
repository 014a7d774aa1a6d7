/** The parsed response body (what `response.json()` yields) and the two
    JavaScript operations the reply extraction applies to it: property access
    with `||` truthiness, and `JSON.stringify`. */
module Json {
  import opened Wrappers
  import opened Text

  /** A JSON value. Numbers are restricted to integers; an object keeps its
      members in source order, as a JavaScript object keeps insertion order. */
  datatype Value =
    | Null
    | Bool(b: bool)
    | Num(n: int)
    | Str(s: string)
    | Arr(items: seq<Value>)
    | Obj(members: seq<(string, Value)>)

  /** JavaScript truthiness: `null`, `false`, `0` and `""` are falsy; every
      array and object is truthy. */
  predicate Truthy(v: Value)
    ensures Truthy(v) <==> v !in {Null, Bool(false), Num(0), Str("")}
  {
    match v
    case Null => false
    case Bool(b) => b
    case Num(n) => n != 0
    case Str(s) => s != ""
    case _ => true
  }

  /** The value bound to `key`; with repeated keys the last binding wins,
      as with `JSON.parse`. */
  function Lookup(members: seq<(string, Value)>, key: string): (r: Option<Value>)
    ensures r.None? <==> forall i | 0 <= i < |members| :: members[i].0 != key
    ensures r.Some? ==> exists i | 0 <= i < |members| ::
                          members[i] == (key, r.value) &&
                          forall j | i < j < |members| :: members[j].0 != key
  {
    if members == [] then None
    else if members[|members| - 1].0 == key then Some(members[|members| - 1].1)
    else Lookup(members[..|members| - 1], key)
  }

  /** The message of the TypeError that reading a property of `null` throws
      (the V8 wording). */
  function NullAccessMessage(key: string): string
  {
    "Cannot read properties of null (reading '" + key + "')"
  }

  /** `v.key`: throws on `null`, reads the member of an object, and is
      `undefined` for every other value (no JSON primitive or array has a
      property named like a reply field). */
  function Property(v: Value, key: string): (r: Result<Option<Value>>)
    ensures r.Err? <==> v.Null?
    ensures r.Err? ==> r.message == NullAccessMessage(key)
    ensures r.Ok? && r.value.Some? ==>
              v.Obj? && exists i | 0 <= i < |v.members| :: v.members[i] == (key, r.value.value)
  {
    match v
    case Null => Err(NullAccessMessage(key))
    case Obj(members) => Ok(Lookup(members, key))
    case _ => Ok(None)
  }

  /** A lower-case hexadecimal digit. */
  function HexDigit(d: nat): char
    requires d < 16
  {
    "0123456789abcdef"[d]
  }

  /** How `JSON.stringify` writes one character inside a string literal. */
  function EscapeChar(c: char): (r: string)
    ensures |r| > 0
  {
    if c == '"' then "\\\""
    else if c == '\\' then "\\\\"
    else if c == '\U{0008}' then "\\b"
    else if c == '\U{000C}' then "\\f"
    else if c == '\n' then "\\n"
    else if c == '\r' then "\\r"
    else if c == '\t' then "\\t"
    else if c < ' ' then "\\u00" + [HexDigit(c as int / 16), HexDigit(c as int % 16)]
    else [c]
  }

  function EscapeChars(s: string): string
  {
    if s == [] then "" else EscapeChar(s[0]) + EscapeChars(s[1..])
  }

  /** A string literal: the escaped text between double quotes. */
  function Quote(s: string): (r: string)
    ensures |r| >= 2 && r[0] == '"' && r[|r| - 1] == '"'
  {
    "\"" + EscapeChars(s) + "\""
  }

  /** The parts separated by commas. */
  function Join(parts: seq<string>): string
  {
    if parts == [] then ""
    else if |parts| == 1 then parts[0]
    else parts[0] + "," + Join(parts[1..])
  }

  /** The decimal rendering of an integer. */
  function IntToString(n: int): (r: string)
    ensures |r| > 0 && (r[0] == '-' || '0' <= r[0] <= '9')
  {
    if n < 0 then "-" + NatToString(-n) else NatToString(n)
  }

  /** `JSON.stringify(v)`. It is never empty, and its first character tells
      which kind of value was written. */
  function Stringify(v: Value): (r: string)
    ensures |r| > 0
    ensures (r[0] == '"') == v.Str?
    ensures (r[0] == '[') == v.Arr?
    ensures (r[0] == '{') == v.Obj?
    ensures (r[0] == 'n') == v.Null?
  {
    match v
    case Null => "null"
    case Bool(b) => if b then "true" else "false"
    case Num(n) => IntToString(n)
    case Str(s) => Quote(s)
    case Arr(items) =>
      "[" + Join(seq(|items|, i requires 0 <= i < |items| => Stringify(items[i]))) + "]"
    case Obj(members) =>
      "{" + Join(seq(|members|, i requires 0 <= i < |members| =>
                   Quote(members[i].0) + ":" + Stringify(members[i].1))) + "}"
  }

  /** The empty containers serialise to their two brackets. */
  lemma EmptyContainers()
    ensures Stringify(Arr([])) == "[]"
    ensures Stringify(Obj([])) == "{}"
  {
    assert seq(0, i requires 0 <= i < 0 => "") == [];
  }
}
