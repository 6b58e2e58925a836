/**
 * The structured values a YAML manifest or a JSON configuration file loads
 * into, Python's truthiness and `dict` access on them, and `json.dumps` with
 * its default settings: `ensure_ascii=True` and the separators `", "` and
 * `": "`.
 */
module Json {
  import opened Wrappers
  import Text

  datatype Value =
    | Null
    | Bool(b: bool)
    | Int(i: int)
    | Str(s: string)
    | List(items: seq<Value>)
    | Object(entries: seq<Entry>)

  /** One key of a mapping; a mapping keeps its keys in insertion order. */
  datatype Entry = Entry(key: string, value: Value)

  /** `key in m` for a mapping given by its entries. */
  predicate HasKey(entries: seq<Entry>, key: string)
  {
    exists e <- entries :: e.key == key
  }

  /**
   * `m[key]`. A loader never produces a key twice; the first entry with the
   * key is the one read.
   */
  function Get(entries: seq<Entry>, key: string): (r: Option<Value>)
    ensures r.Some? <==> HasKey(entries, key)
    ensures r.Some? ==> Entry(key, r.value) in entries
  {
    if entries == [] then None
    else if entries[0].key == key then Some(entries[0].value)
    else
      assert forall e <- entries :: e == entries[0] || e in entries[1..];
      Get(entries[1..], key)
  }

  /** `m.get(key)`: Python's `None` when the key is absent. */
  function GetOr(entries: seq<Entry>, key: string): (r: Value)
    ensures !HasKey(entries, key) ==> r == Null
    ensures HasKey(entries, key) ==> Entry(key, r) in entries
  {
    match Get(entries, key)
    case Some(v) => v
    case None => Null
  }

  /** Python's `bool(v)`. */
  predicate Truthy(v: Value)
  {
    match v
    case Null => false
    case Bool(b) => b
    case Int(i) => i != 0
    case Str(s) => s != ""
    case List(items) => items != []
    case Object(entries) => entries != []
  }

  /** The list of strings `["a", "b"]` as a value. */
  function ArgvValue(argv: seq<string>): (v: Value)
    ensures v.List? && |v.items| == |argv|
    ensures forall k :: 0 <= k < |argv| ==> v.items[k] == Str(argv[k])
  {
    List(seq(|argv|, k requires 0 <= k < |argv| => Str(argv[k])))
  }

  /** `isinstance(v, list) and all(isinstance(e, str) for e in v)`. */
  predicate IsArgv(v: Value)
  {
    v.List? && forall k :: 0 <= k < |v.items| ==> v.items[k].Str?
  }

  function DecimalDigit(d: nat): char
    requires d < 10
  {
    ('0' as int + d) as char
  }

  /** `str(n)` for a natural number. */
  function NatToDecimal(n: nat): (r: string)
    ensures |r| >= 1
    ensures forall k :: 0 <= k < |r| ==> '0' <= r[k] <= '9'
  {
    if n < 10 then [DecimalDigit(n)] else NatToDecimal(n / 10) + [DecimalDigit(n % 10)]
  }

  /** `str(i)` for an integer. */
  function IntToDecimal(i: int): string
  {
    if i < 0 then "-" + NatToDecimal(-i) else NatToDecimal(i)
  }

  /** A lower-case hexadecimal digit, as Python's `x` format writes it. */
  function HexDigit(d: nat): (c: char)
    requires d < 16
    ensures '0' <= c <= '9' || 'a' <= c <= 'f'
  {
    if d < 10 then ('0' as int + d) as char else ('a' as int + d - 10) as char
  }

  /** `'{0:04x}'.format(n)`. */
  function Hex4(n: nat): (r: string)
    requires n < 0x1_0000
    ensures |r| == 4
  {
    [HexDigit(n / 0x1000), HexDigit(n / 0x100 % 0x10), HexDigit(n / 0x10 % 0x10), HexDigit(n % 0x10)]
  }

  /** Printable ASCII: the characters `ensure_ascii` leaves as they are. */
  predicate Printable(c: char)
  {
    ' ' <= c <= '~'
  }

  /**
   * How `json.dumps` writes one character inside a string literal. Characters
   * beyond the Basic Multilingual Plane become a UTF-16 surrogate pair; the
   * shifts and masks of the encoder are the divisions and remainders below.
   */
  function EscapeChar(c: char): (r: string)
    ensures |r| >= 1 && r[0] != '"'
    ensures forall k :: 0 <= k < |r| ==> Printable(r[k])
  {
    if c == '"' then "\\\""
    else if c == '\\' then "\\\\"
    else if c == '\n' then "\\n"
    else if c == '\r' then "\\r"
    else if c == '\t' then "\\t"
    else if c == '\U{8}' then "\\b"
    else if c == '\U{c}' then "\\f"
    else if Printable(c) then [c]
    else if c as int < 0x1_0000 then "\\u" + Hex4(c as int)
    else
      var n := c as int - 0x1_0000;
      "\\u" + Hex4(0xD800 + n / 0x400) + "\\u" + Hex4(0xDC00 + n % 0x400)
  }

  /** The body of a string literal: every character escaped in turn. */
  function EscapeString(s: string): (r: string)
    ensures forall k :: 0 <= k < |r| ==> Printable(r[k])
  {
    if s == [] then "" else EscapeChar(s[0]) + EscapeString(s[1..])
  }

  /** `json.dumps(s)` for a string. */
  function Quote(s: string): string
  {
    "\"" + EscapeString(s) + "\""
  }

  /** `json.dumps(v)`. */
  function Dumps(v: Value): string
  {
    match v
    case Null => "null"
    case Bool(b) => if b then "true" else "false"
    case Int(i) => IntToDecimal(i)
    case Str(s) => Quote(s)
    case List(items) =>
      "[" + Text.Join(seq(|items|, k requires 0 <= k < |items| => Dumps(items[k])), ", ") + "]"
    case Object(entries) =>
      "{" + Text.Join(seq(|entries|, k requires 0 <= k < |entries| =>
                            Quote(entries[k].key) + ": " + Dumps(entries[k].value)), ", ") + "}"
  }
}
