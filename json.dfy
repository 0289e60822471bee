/**
 * JSON as the backend sees it: the result of looking a key up in a decoded
 * JSON object (Python `dict.get`), JSON values, and the text Python's
 * `json.dumps(value, ensure_ascii=False)` produces for them (default
 * separators ", " and ": ", no indentation).
 */
module Json {
  import opened Wrappers
  import opened Strings

  // ------------------------------------------------------- dictionary lookups

  /**
   * What a key lookup in a decoded JSON object finds: the key is absent, it
   * maps to `null`, or it maps to a value.
   */
  datatype Field<+T> = Missing | Null | Present(value: T)

  /**
   * Python `d.get(key, default)`: the default when the key is absent, `None`
   * when it maps to `null`. The result `None` stands for Python's `None`.
   */
  function Get<T>(f: Field<T>, default: Option<T>): (r: Option<T>)
    ensures f.Present? ==> r == Some(f.value)
    ensures f.Null? ==> r == None
    ensures f.Missing? ==> r == default
  {
    match f
    case Missing => default
    case Null => None
    case Present(v) => Some(v)
  }

  /** The value a lookup stores when it is not `null`: the value itself, or the default when absent. */
  function ValueOr<T>(f: Field<T>, default: T): T {
    if f.Present? then f.value else default
  }

  /** Python (and JavaScript) truthiness of a string-valued lookup: absent, null and "" are false. */
  predicate Truthy(f: Field<string>) {
    f.Present? && f.value != ""
  }

  // ------------------------------------------------------------------ values

  datatype JsonValue =
    | JNull
    | JBool(b: bool)
    | JInt(i: int)
    | JString(s: string)
    | JArray(items: seq<JsonValue>)
    | JObject(members: seq<Member>)

  /** One `"key": value` pair of an object, in insertion order. */
  datatype Member = Member(key: string, value: JsonValue)

  // ------------------------------------------------------- string escaping

  /** Lower-case hexadecimal digit, as Python's `'\\u{0:04x}'` writes it. */
  function HexDigit(d: nat): char
    requires d < 16
  {
    if d < 10 then (48 + d) as char else (87 + d) as char
  }

  predicate IsHexDigit(c: char) {
    ('0' <= c <= '9') || ('a' <= c <= 'f') || ('A' <= c <= 'F')
  }

  function HexValue(c: char): (d: nat)
    requires IsHexDigit(c)
    ensures d < 16
  {
    if '0' <= c <= '9' then c as int - 48
    else if 'a' <= c <= 'f' then c as int - 87
    else c as int - 55
  }

  /**
   * How `json.dumps(..., ensure_ascii=False)` writes one character of a
   * string: the quote, the backslash and the control characters below U+0020
   * are escaped, every other character is written as it is.
   */
  function EscapeChar(c: char): string {
    if c == '"' then "\\\""
    else if c == '\\' then "\\\\"
    else if c == '\n' then "\\n"
    else if c == '\r' then "\\r"
    else if c == '\t' then "\\t"
    else if c == '\U{8}' then "\\b"
    else if c == '\U{c}' then "\\f"
    else if c < ' ' then "\\u00" + [HexDigit(c as int / 16), HexDigit(c as int % 16)]
    else [c]
  }

  function EscapeBody(s: string): string
    decreases |s|
  {
    if s == [] then "" else EscapeChar(s[0]) + EscapeBody(s[1..])
  }

  /** A JSON string literal. */
  function Quote(s: string): string {
    "\"" + EscapeBody(s) + "\""
  }

  /** The character a one-letter escape `\x` stands for. */
  function SimpleEscape(e: char): Option<char> {
    if e == '"' then Some('"')
    else if e == '\\' then Some('\\')
    else if e == '/' then Some('/')
    else if e == 'n' then Some('\n')
    else if e == 'r' then Some('\r')
    else if e == 't' then Some('\t')
    else if e == 'b' then Some('\U{8}')
    else if e == 'f' then Some('\U{c}')
    else None
  }

  /** The value of a `\uXXXX` escape starting at `t[0]`, when it is one that names a character. */
  function UnicodeEscape(t: string): Option<char>
    requires |t| >= 6
  {
    if t[1] == 'u' && IsHexDigit(t[2]) && IsHexDigit(t[3]) && IsHexDigit(t[4]) && IsHexDigit(t[5]) then
      var v := 4096 * HexValue(t[2]) + 256 * HexValue(t[3]) + 16 * HexValue(t[4]) + HexValue(t[5]);
      if 0xD800 <= v <= 0xDFFF then None else Some(v as char)
    else None
  }

  /**
   * Decodes the body of a JSON string literal (the text between the quotes);
   * `None` when it is malformed. Surrogate pairs are not decoded.
   */
  function UnescapeBody(t: string): Option<string>
    decreases |t|
  {
    if t == [] then Some("")
    else if t[0] == '"' then None
    else if t[0] != '\\' then
      match UnescapeBody(t[1..])
      case None => None
      case Some(r) => Some([t[0]] + r)
    else if |t| >= 2 && SimpleEscape(t[1]).Some? then
      match UnescapeBody(t[2..])
      case None => None
      case Some(r) => Some([SimpleEscape(t[1]).value] + r)
    else if |t| >= 6 && UnicodeEscape(t).Some? then
      match UnescapeBody(t[6..])
      case None => None
      case Some(r) => Some([UnicodeEscape(t).value] + r)
    else None
  }

  /** Decoding one escaped character followed by more text. */
  lemma UnescapeChar(c: char, rest: string)
    ensures UnescapeBody(EscapeChar(c) + rest) ==
      match UnescapeBody(rest)
      case None => None
      case Some(r) => Some([c] + r)
  {
    var t := EscapeChar(c) + rest;
    if c == '"' || c == '\\' || c == '\n' || c == '\r' || c == '\t' || c == '\U{8}' || c == '\U{c}' {
      assert t[2..] == rest;
    } else if c < ' ' {
      var hi, lo := c as int / 16, c as int % 16;
      assert t[..6] == "\\u00" + [HexDigit(hi), HexDigit(lo)];
      assert t[6..] == rest;
      assert HexValue(HexDigit(hi)) == hi && HexValue(HexDigit(lo)) == lo;
      assert UnicodeEscape(t) == Some(c);
    } else {
      assert t[1..] == rest;
    }
  }

  /** Escaping a string and decoding the escaped text gives the string back. */
  lemma {:induction false} EscapeRoundTrip(s: string)
    ensures UnescapeBody(EscapeBody(s)) == Some(s)
    decreases |s|
  {
    if s != [] {
      EscapeRoundTrip(s[1..]);
      UnescapeChar(s[0], EscapeBody(s[1..]));
      assert [s[0]] + s[1..] == s;
    }
  }

  // ------------------------------------------------------------ serialising

  /** The items of an array, each serialised. */
  function SerializeItems(items: seq<JsonValue>): (r: seq<string>)
    ensures |r| == |items|
    decreases items, 0
  {
    seq(|items|, k requires 0 <= k < |items| => Serialize(items[k]))
  }

  /** The members of an object, each written `"key": value`. */
  function SerializeMembers(ms: seq<Member>): (r: seq<string>)
    ensures |r| == |ms|
    decreases ms, 0
  {
    seq(|ms|, k requires 0 <= k < |ms| => Quote(ms[k].key) + ": " + Serialize(ms[k].value))
  }

  /** `json.dumps(v, ensure_ascii=False)`. */
  function Serialize(v: JsonValue): string
    decreases v, 1
  {
    match v
    case JNull => "null"
    case JBool(b) => if b then "true" else "false"
    case JInt(i) => IntToDecimal(i)
    case JString(s) => Quote(s)
    case JArray(items) => "[" + Join(SerializeItems(items), ", ") + "]"
    case JObject(ms) => "{" + Join(SerializeMembers(ms), ", ") + "}"
  }

  lemma {:induction false} EscapeBodyNoNewline(s: string)
    ensures '\n' !in EscapeBody(s)
    decreases |s|
  {
    if s != [] {
      EscapeBodyNoNewline(s[1..]);
      var c := s[0];
      if c < ' ' && !(c == '\n' || c == '\r' || c == '\t' || c == '\U{8}' || c == '\U{c}') {
        var hi, lo := c as int / 16, c as int % 16;
        assert EscapeChar(c) == "\\u00" + [HexDigit(hi), HexDigit(lo)];
      }
      assert '\n' !in EscapeChar(c);
    }
  }

  lemma DecimalNoNewline(i: int)
    ensures '\n' !in IntToDecimal(i)
  {
    var n: nat := if i < 0 then -i else i;
    var d := NatToDecimal(n);
    assert forall k :: 0 <= k < |d| ==> d[k] != '\n';
  }

  /**
   * The compact serialisation never contains a line break: a newline inside
   * a string is written as the two characters `\n`. This is what makes JSON
   * Lines output one record per line.
   */
  lemma {:induction false} SerializeNoNewline(v: JsonValue)
    ensures '\n' !in Serialize(v)
    decreases v
  {
    match v
    case JNull =>
    case JBool(b) =>
    case JInt(i) => DecimalNoNewline(i);
    case JString(s) => EscapeBodyNoNewline(s);
    case JArray(items) =>
      var parts := SerializeItems(items);
      forall k | 0 <= k < |parts| ensures '\n' !in parts[k] {
        SerializeNoNewline(items[k]);
      }
      JoinAvoids(parts, ", ", '\n');
    case JObject(ms) =>
      var parts := SerializeMembers(ms);
      forall k | 0 <= k < |parts| ensures '\n' !in parts[k] {
        EscapeBodyNoNewline(ms[k].key);
        SerializeNoNewline(ms[k].value);
      }
      JoinAvoids(parts, ", ", '\n');
  }
}
