/**
 * Reading back what `json.dumps` writes for a list of strings: the exec-form
 * `CMD` line a container engine parses. Its round-trip lemma is the partner
 * of the encoder in module Json.
 */
module JsonDecode {
  import opened Wrappers
  import opened Json
  import Text

  function HexValue(c: char): Option<nat>
  {
    if '0' <= c <= '9' then Some(c as int - '0' as int)
    else if 'a' <= c <= 'f' then Some(c as int - 'a' as int + 10)
    else if 'A' <= c <= 'F' then Some(c as int - 'A' as int + 10)
    else None
  }

  /** The number written by the first four hexadecimal digits of `s`. */
  function ParseHex4(s: string): (r: Option<nat>)
    ensures r.Some? ==> r.value < 0x1_0000
  {
    if |s| < 4 then None
    else match (HexValue(s[0]), HexValue(s[1]), HexValue(s[2]), HexValue(s[3]))
      case (Some(a), Some(b), Some(c), Some(d)) =>
        if a < 16 && b < 16 && c < 16 && d < 16 then Some(a * 0x1000 + b * 0x100 + c * 0x10 + d) else None
      case _ => None
  }

  /** One escape sequence at the start of `s`, and what follows it. */
  function DecodeEscape(s: string): (r: Option<(char, string)>)
    requires |s| >= 1 && s[0] == '\\'
    ensures r.Some? ==> |r.value.1| < |s|
  {
    if |s| < 2 then None
    else if s[1] == '"' then Some(('"', s[2..]))
    else if s[1] == '\\' then Some(('\\', s[2..]))
    else if s[1] == '/' then Some(('/', s[2..]))
    else if s[1] == 'b' then Some(('\U{8}', s[2..]))
    else if s[1] == 'f' then Some(('\U{c}', s[2..]))
    else if s[1] == 'n' then Some(('\n', s[2..]))
    else if s[1] == 'r' then Some(('\r', s[2..]))
    else if s[1] == 't' then Some(('\t', s[2..]))
    else if s[1] != 'u' then None
    else match ParseHex4(s[2..])
      case None => None
      case Some(v) =>
        if 0xD800 <= v < 0xDC00 then
          if |s| < 8 || s[6] != '\\' || s[7] != 'u' then None
          else match ParseHex4(s[8..])
            case None => None
            case Some(w) =>
              if 0xDC00 <= w < 0xE000 then
                Some(((0x1_0000 + (v - 0xD800) * 0x400 + (w - 0xDC00)) as char, s[12..]))
              else None
        else if 0xDC00 <= v < 0xE000 then None
        else Some((v as char, s[6..]))
  }

  /** One character of a string literal's body: an escape or a printable character. */
  function DecodeOne(s: string): (r: Option<(char, string)>)
    requires s != []
    ensures r.Some? ==> |r.value.1| < |s|
  {
    if s[0] == '\\' then DecodeEscape(s)
    else if Printable(s[0]) && s[0] != '"' then Some((s[0], s[1..]))
    else None
  }

  /** The body of a string literal up to its closing quote, and what follows the quote. */
  function DecodeBody(s: string): (r: Option<(string, string)>)
    ensures r.Some? ==> |r.value.1| < |s|
    decreases |s|
  {
    if s == [] then None
    else if s[0] == '"' then Some(("", s[1..]))
    else match DecodeOne(s)
      case None => None
      case Some((c, rest)) =>
        match DecodeBody(rest)
        case None => None
        case Some((t, after)) => Some(([c] + t, after))
  }

  /** The items of an array after its `[`: string literals separated by `", "`, then `]`. */
  function DecodeItems(s: string): Option<seq<string>>
    decreases |s|
  {
    if s == [] || s[0] != '"' then None
    else match DecodeBody(s[1..])
      case None => None
      case Some((t, rest)) =>
        if rest == "]" then Some([t])
        else if |rest| >= 2 && rest[0] == ',' && rest[1] == ' ' then
          match DecodeItems(rest[2..])
          case None => None
          case Some(ts) => Some([t] + ts)
        else None
  }

  /** An exec-form argument list: a JSON array of strings, as `json.dumps` lays it out. */
  function DecodeArgv(s: string): Option<seq<string>>
  {
    if s == "[]" then Some([])
    else if |s| >= 1 && s[0] == '[' then DecodeItems(s[1..])
    else None
  }

  lemma HexDigitValue(d: nat)
    requires d < 16
    ensures HexValue(HexDigit(d)) == Some(d)
  {
  }

  /** Four hexadecimal digits at the start of `s` are read as their value. */
  lemma ParseHexDigits(s: string, a: nat, b: nat, c: nat, d: nat)
    requires a < 16 && b < 16 && c < 16 && d < 16
    requires |s| >= 4 && s[0] == HexDigit(a) && s[1] == HexDigit(b) && s[2] == HexDigit(c) && s[3] == HexDigit(d)
    ensures ParseHex4(s) == Some(a * 0x1000 + b * 0x100 + c * 0x10 + d)
  {
    HexDigitValue(a);
    HexDigitValue(b);
    HexDigitValue(c);
    HexDigitValue(d);
  }

  /** A number below 0x10000 is the sum of its four hexadecimal digits, weighted. */
  lemma HexDigitsSum(n: nat)
    requires n < 0x1_0000
    ensures n == n / 0x1000 * 0x1000 + n / 0x100 % 0x10 * 0x100 + n / 0x10 % 0x10 * 0x10 + n % 0x10
  {
    assert n == n / 0x10 * 0x10 + n % 0x10;
    assert n / 0x10 == n / 0x100 * 0x10 + n / 0x10 % 0x10;
    assert n / 0x100 == n / 0x1000 * 0x10 + n / 0x100 % 0x10;
  }

  lemma Hex4RoundTrip(n: nat, rest: string)
    requires n < 0x1_0000
    ensures ParseHex4(Hex4(n) + rest) == Some(n)
  {
    var s := Hex4(n) + rest;
    assert s[0] == HexDigit(n / 0x1000) && s[1] == HexDigit(n / 0x100 % 0x10);
    assert s[2] == HexDigit(n / 0x10 % 0x10) && s[3] == HexDigit(n % 0x10);
    ParseHexDigits(s, n / 0x1000, n / 0x100 % 0x10, n / 0x10 % 0x10, n % 0x10);
    HexDigitsSum(n);
  }

  lemma NamedEscapeRoundTrip(c: char, rest: string)
    requires c == '"' || c == '\\' || c == '\n' || c == '\r' || c == '\t' || c == '\U{8}' || c == '\U{c}'
    ensures DecodeOne(EscapeChar(c) + rest) == Some((c, rest))
  {
    var s := EscapeChar(c) + rest;
    assert |EscapeChar(c)| == 2 && s[0] == '\\';
    assert s[2..] == rest;
  }

  lemma BmpEscapeRoundTrip(c: char, rest: string)
    requires !Printable(c) && c as int < 0x1_0000
    requires !(c == '\n' || c == '\r' || c == '\t' || c == '\U{8}' || c == '\U{c}')
    ensures DecodeOne(EscapeChar(c) + rest) == Some((c, rest))
  {
    var s := EscapeChar(c) + rest;
    assert EscapeChar(c) == "\\u" + Hex4(c as int);
    assert s[2..] == Hex4(c as int) + rest;
    Hex4RoundTrip(c as int, rest);
    assert s[6..] == rest;
  }

  /** A high and a low surrogate, each written as `\uXXXX`, decode to the one character they encode. */
  lemma SurrogatePairDecodes(hi: nat, lo: nat, rest: string)
    requires 0xD800 <= hi < 0xDC00 && 0xDC00 <= lo < 0xE000
    ensures DecodeEscape("\\u" + Hex4(hi) + ("\\u" + Hex4(lo) + rest)) ==
            Some(((0x1_0000 + (hi - 0xD800) * 0x400 + (lo - 0xDC00)) as char, rest))
  {
    var s := "\\u" + Hex4(hi) + ("\\u" + Hex4(lo) + rest);
    assert s[2..] == Hex4(hi) + ("\\u" + Hex4(lo) + rest);
    Hex4RoundTrip(hi, "\\u" + Hex4(lo) + rest);
    assert s[8..] == Hex4(lo) + rest;
    Hex4RoundTrip(lo, rest);
    assert s[12..] == rest;
  }

  lemma AstralEscapeRoundTrip(c: char, rest: string)
    requires c as int >= 0x1_0000
    ensures DecodeOne(EscapeChar(c) + rest) == Some((c, rest))
  {
    var n := c as int - 0x1_0000;
    var hi, lo := 0xD800 + n / 0x400, 0xDC00 + n % 0x400;
    assert EscapeChar(c) + rest == "\\u" + Hex4(hi) + ("\\u" + Hex4(lo) + rest);
    SurrogatePairDecodes(hi, lo, rest);
    assert 0x1_0000 + (hi - 0xD800) * 0x400 + (lo - 0xDC00) == c as int;
  }

  /** Decoding the escape of `c` gives `c` back and stops exactly after it. */
  lemma EscapeCharRoundTrip(c: char, rest: string)
    ensures DecodeOne(EscapeChar(c) + rest) == Some((c, rest))
  {
    if c == '"' || c == '\\' || c == '\n' || c == '\r' || c == '\t' || c == '\U{8}' || c == '\U{c}' {
      NamedEscapeRoundTrip(c, rest);
    } else if Printable(c) {
      var s := EscapeChar(c) + rest;
      assert s[1..] == rest;
    } else if c as int < 0x1_0000 {
      BmpEscapeRoundTrip(c, rest);
    } else {
      AstralEscapeRoundTrip(c, rest);
    }
  }

  /** The body of a quoted string decodes back to the string, up to its closing quote. */
  lemma {:induction false} EscapeStringRoundTrip(t: string, rest: string)
    ensures DecodeBody(EscapeString(t) + "\"" + rest) == Some((t, rest))
  {
    var s := EscapeString(t) + "\"" + rest;
    if t == [] {
      assert s == "\"" + rest;
      assert s[1..] == rest;
    } else {
      var tail := EscapeString(t[1..]) + "\"" + rest;
      assert s == EscapeChar(t[0]) + tail;
      EscapeCharRoundTrip(t[0], tail);
      EscapeStringRoundTrip(t[1..], rest);
      assert [t[0]] + t[1..] == t;
    }
  }

  /** The literal `json.dumps` writes for a string, read back. */
  lemma QuoteRoundTrip(t: string, rest: string)
    ensures DecodeBody((Quote(t) + rest)[1..]) == Some((t, rest))
  {
    assert (Quote(t) + rest)[1..] == EscapeString(t) + "\"" + rest;
    EscapeStringRoundTrip(t, rest);
  }

  /** The literals `json.dumps` writes for the items of a list of strings. */
  function Quoted(argv: seq<string>): (qs: seq<string>)
    ensures |qs| == |argv|
    ensures forall k :: 0 <= k < |argv| ==> qs[k] == Quote(argv[k])
  {
    seq(|argv|, k requires 0 <= k < |argv| => Quote(argv[k]))
  }

  lemma ItemLast(t: string)
    ensures DecodeItems(Quote(t) + "]") == Some([t])
  {
    var s := Quote(t) + "]";
    assert s[0] == '"';
    QuoteRoundTrip(t, "]");
  }

  lemma ItemNext(t: string, more: string)
    ensures DecodeItems(Quote(t) + ", " + more) ==
            match DecodeItems(more) case Some(ts) => Some([t] + ts) case None => None
  {
    var s := Quote(t) + (", " + more);
    assert s == Quote(t) + ", " + more;
    assert s[0] == '"';
    QuoteRoundTrip(t, ", " + more);
    assert (", " + more)[2..] == more;
  }

  lemma {:induction false} ItemsRoundTrip(argv: seq<string>)
    requires argv != []
    ensures DecodeItems(Text.Join(Quoted(argv), ", ") + "]") == Some(argv)
  {
    var qs := Quoted(argv);
    if |argv| == 1 {
      assert Text.Join(qs, ", ") == Quote(argv[0]);
      ItemLast(argv[0]);
      assert [argv[0]] == argv;
    } else {
      var tail := argv[1..];
      assert qs[1..] == Quoted(tail);
      var more := Text.Join(Quoted(tail), ", ") + "]";
      assert Text.Join(qs, ", ") + "]" == Quote(argv[0]) + ", " + more;
      ItemNext(argv[0], more);
      ItemsRoundTrip(tail);
      assert [argv[0]] + tail == argv;
    }
  }

  /** Every list of strings `json.dumps` writes decodes back to the same list. */
  lemma DumpsArgvRoundTrip(argv: seq<string>)
    ensures DecodeArgv(Dumps(ArgvValue(argv))) == Some(argv)
  {
    var v := ArgvValue(argv);
    var parts := seq(|v.items|, k requires 0 <= k < |v.items| => Dumps(v.items[k]));
    var qs := Quoted(argv);
    assert parts == qs;
    if argv == [] {
      assert Dumps(v) == "[]";
    } else {
      var s := Dumps(v);
      assert s == "[" + (Text.Join(qs, ", ") + "]");
      assert s[1..] == Text.Join(qs, ", ") + "]";
      assert s != "[]" by {
        assert |Quote(argv[0])| >= 2;
        assert |Text.Join(qs, ", ")| >= 2 by { JoinLength(qs); }
      }
      ItemsRoundTrip(argv);
    }
  }

  lemma {:induction false} JoinLength(qs: seq<string>)
    requires qs != [] && forall q <- qs :: |q| >= 2
    ensures |Text.Join(qs, ", ")| >= 2
  {
    if |qs| > 1 {
      assert qs[0] in qs;
    } else {
      assert qs[0] in qs;
    }
  }

  /** What `json.dumps` writes for a string is plain printable ASCII between two quotes. */
  lemma QuoteIsAscii(t: string)
    ensures forall k :: 0 <= k < |Quote(t)| ==> Printable(Quote(t)[k])
  {
  }
}
