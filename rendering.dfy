/**
 * Rendering of bound parameters, as the text and JSON formatters need it
 * (lib/active_record/mod_sql_log_subscriber.rb:48,50).
 *
 * Binds are an ordered list of (name, value) pairs. The text formatter renders
 * them the way Ruby's `Hash#inspect` does for symbol keys (`{:id=>1, :name=>"Name"}`);
 * the JSON formatter writes the two-key object `{"sql":...,"binds":{...}}` the way
 * `JSON.generate` does, with its string escaping. `ReadString` reads a JSON string
 * back, so that `JsonCarriesSql` can state that the JSON line holds the statement
 * unchanged.
 */
module Rendering {
  import opened Wrappers

  /** A type-cast bind value. */
  datatype Value = Int(i: int) | Str(s: string) | Bool(b: bool) | Nil

  /** Type-cast binds: parameter names with their values, in statement order. */
  type Binds = seq<(string, Value)>

  function DigitChar(d: nat): char
    requires d < 10
  {
    "0123456789"[d]
  }

  /** Decimal notation of a natural number. */
  function NatToDecimal(n: nat): (r: string)
    ensures |r| > 0 && forall i :: 0 <= i < |r| ==> '0' <= r[i] <= '9'
    decreases n
  {
    if n < 10 then [DigitChar(n)] else NatToDecimal(n / 10) + [DigitChar(n % 10)]
  }

  /** `Integer#inspect` and `Integer#to_json`: decimal with a leading `-` when negative. */
  function IntToDecimal(i: int): string {
    if i < 0 then "-" + NatToDecimal(-i) else NatToDecimal(i)
  }

  // ---------------------------------------------------------------------------
  // Hash#inspect

  function InspectValue(v: Value): string {
    match v
    case Int(i) => IntToDecimal(i)
    case Str(s) => "\"" + s + "\""
    case Bool(b) => if b then "true" else "false"
    case Nil => "nil"
  }

  function InspectPair(p: (string, Value)): string {
    ":" + p.0 + "=>" + InspectValue(p.1)
  }

  function InspectPairs(binds: Binds): string {
    if binds == [] then ""
    else if |binds| == 1 then InspectPair(binds[0])
    else InspectPair(binds[0]) + ", " + InspectPairs(binds[1..])
  }

  /** `binds.inspect`: the pairs in order, between braces. */
  function InspectBinds(binds: Binds): (r: string)
    ensures |r| >= 2 && r[0] == '{' && r[|r| - 1] == '}'
  {
    "{" + InspectPairs(binds) + "}"
  }

  // ---------------------------------------------------------------------------
  // JSON.generate

  function HexDigit(d: nat): char
    requires d < 16
  {
    "0123456789abcdef"[d]
  }

  function HexValue(c: char): Option<nat> {
    if '0' <= c <= '9' then Some(c as int - '0' as int)
    else if 'a' <= c <= 'f' then Some(c as int - 'a' as int + 10)
    else if 'A' <= c <= 'F' then Some(c as int - 'A' as int + 10)
    else None
  }

  /** How the JSON generator writes one character inside a string literal. */
  function EscapeChar(c: char): string {
    if c == '"' then "\\\""
    else if c == '\\' then "\\\\"
    else if c == '\U{0008}' then "\\b"
    else if c == '\U{000C}' then "\\f"
    else if c == '\n' then "\\n"
    else if c == '\r' then "\\r"
    else if c == '\t' then "\\t"
    else if c < ' ' then "\\u00" + [HexDigit(c as int / 16), HexDigit(c as int % 16)]
    else [c]
  }

  function Escape(s: string): string {
    if s == [] then "" else EscapeChar(s[0]) + Escape(s[1..])
  }

  /** A JSON string literal. */
  function Quote(s: string): string {
    "\"" + Escape(s) + "\""
  }

  function JsonValue(v: Value): string {
    match v
    case Int(i) => IntToDecimal(i)
    case Str(s) => Quote(s)
    case Bool(b) => if b then "true" else "false"
    case Nil => "null"
  }

  function JsonPairs(binds: Binds): string {
    if binds == [] then ""
    else if |binds| == 1 then Quote(binds[0].0) + ":" + JsonValue(binds[0].1)
    else Quote(binds[0].0) + ":" + JsonValue(binds[0].1) + "," + JsonPairs(binds[1..])
  }

  /** `JSON.generate(sql: sql, binds: binds)`: keys `sql` then `binds`. */
  function JsonDocument(sql: string, binds: Binds): (doc: string)
    ensures |doc| >= |SqlKeyOpen| && doc[..|SqlKeyOpen|] == SqlKeyOpen
    ensures ReadString(doc[|SqlKeyOpen|..]) == Some((sql, BindsMember(binds)))
  {
    var body := Escape(sql) + "\"" + BindsMember(binds);
    ReadEscaped(sql, BindsMember(binds));
    var doc := SqlKeyOpen + body;
    assert doc[..|SqlKeyOpen|] == SqlKeyOpen && doc[|SqlKeyOpen|..] == body;
    doc
  }

  /** The opening of the document up to the quote that starts the statement. */
  const SqlKeyOpen: string := "{\"sql\":\""

  /** What follows the statement's closing quote: the `binds` member and the
      closing brace. */
  function BindsMember(binds: Binds): (r: string)
    ensures |r| >= 12 && r[..10] == ",\"binds\":{" && r[|r| - 2..] == "}}"
  {
    var r := ",\"binds\":{" + JsonPairs(binds) + "}}";
    assert r[..10] == ",\"binds\":{";
    r
  }

  // ---------------------------------------------------------------------------
  // Reading a JSON string back

  function Prepend(c: char, r: Option<(string, string)>): Option<(string, string)> {
    match r
    case None => None
    case Some(p) => Some(([c] + p.0, p.1))
  }

  function Unescape(e: char): Option<char> {
    match e
    case '"' => Some('"')
    case '\\' => Some('\\')
    case '/' => Some('/')
    case 'b' => Some('\U{0008}')
    case 'f' => Some('\U{000C}')
    case 'n' => Some('\n')
    case 'r' => Some('\r')
    case 't' => Some('\t')
    case _ => None
  }

  /** The code point of four hex digits, when it is not a surrogate. */
  function HexQuad(h: string): Option<char>
    requires |h| == 4
  {
    match (HexValue(h[0]), HexValue(h[1]), HexValue(h[2]), HexValue(h[3]))
    case (Some(a), Some(b), Some(c), Some(d)) =>
      var v := ((a * 16 + b) * 16 + c) * 16 + d;
      if 0xD800 <= v < 0xE000 || v >= 0x11_0000 then None else Some(v as char)
    case _ => None
  }

  /** Reads the body of a JSON string literal up to its closing quote; returns
      the decoded text and what follows the quote. */
  function ReadString(s: string): Option<(string, string)>
    decreases |s|
  {
    if s == [] then None
    else if s[0] == '"' then Some(("", s[1..]))
    else if s[0] != '\\' then Prepend(s[0], ReadString(s[1..]))
    else if |s| < 2 then None
    else if s[1] == 'u' then
      if |s| < 6 then None
      else match HexQuad(s[2..6])
        case None => None
        case Some(c) => Prepend(c, ReadString(s[6..]))
    else match Unescape(s[1])
      case None => None
      case Some(c) => Prepend(c, ReadString(s[2..]))
  }

  /** The value of the `sql` key of a document that starts `{"sql":"`. */
  function SqlField(doc: string): Option<string> {
    if |doc| < |SqlKeyOpen| || doc[..|SqlKeyOpen|] != SqlKeyOpen then None
    else match ReadString(doc[|SqlKeyOpen|..])
      case None => None
      case Some(p) => Some(p.0)
  }

  /** A two-character escape reads back as its character. */
  lemma ReadShortEscape(c: char, tail: string)
    requires c == '"' || c == '\\' || c == '\U{0008}' || c == '\U{000C}' || c == '\n' || c == '\r' || c == '\t'
    ensures ReadString(EscapeChar(c) + tail) == Prepend(c, ReadString(tail))
  {
    var s := EscapeChar(c) + tail;
    assert s[2..] == tail;
  }

  /** A `\u00XX` escape of a control character reads back as that character. */
  lemma ReadUnicodeEscape(c: char, tail: string)
    requires c < ' ' && c != '\U{0008}' && c != '\U{000C}' && c != '\n' && c != '\r' && c != '\t'
    ensures ReadString(EscapeChar(c) + tail) == Prepend(c, ReadString(tail))
  {
    var hi, lo := c as int / 16, c as int % 16;
    var s := EscapeChar(c) + tail;
    assert s[..2] == "\\u";
    assert s[2..6] == "00" + [HexDigit(hi), HexDigit(lo)];
    assert HexValue(HexDigit(hi)) == Some(hi);
    assert HexValue(HexDigit(lo)) == Some(lo);
    assert HexQuad(s[2..6]) == Some(c);
    assert s[6..] == tail;
  }

  lemma ReadEscapedChar(c: char, tail: string)
    ensures ReadString(EscapeChar(c) + tail) == Prepend(c, ReadString(tail))
  {
    if c == '"' || c == '\\' || c == '\U{0008}' || c == '\U{000C}' || c == '\n' || c == '\r' || c == '\t' {
      ReadShortEscape(c, tail);
    } else if c < ' ' {
      ReadUnicodeEscape(c, tail);
    } else {
      assert (EscapeChar(c) + tail)[1..] == tail;
    }
  }

  /** Escaping round-trips: reading an escaped string up to the closing quote
      gives back the string and leaves what follows the quote. */
  lemma {:induction false} ReadEscaped(s: string, rest: string)
    ensures ReadString(Escape(s) + "\"" + rest) == Some((s, rest))
    decreases |s|
  {
    if s == [] {
      assert Escape(s) + "\"" + rest == "\"" + rest;
    } else {
      var tail := Escape(s[1..]) + "\"" + rest;
      assert Escape(s) + "\"" + rest == EscapeChar(s[0]) + tail;
      ReadEscapedChar(s[0], tail);
      ReadEscaped(s[1..], rest);
      assert [s[0]] + s[1..] == s;
    }
  }

  /** Text without quotes, backslashes or control characters is written as it is. */
  lemma {:induction false} EscapePlain(s: string)
    requires forall i :: 0 <= i < |s| ==> s[i] != '"' && s[i] != '\\' && s[i] >= ' '
    ensures Escape(s) == s
  {
    if s != [] {
      EscapePlain(s[1..]);
      assert [s[0]] + s[1..] == s;
    }
  }

  /** The JSON line carries the statement unchanged under its `sql` key. */
  lemma JsonCarriesSql(sql: string, binds: Binds)
    ensures SqlField(JsonDocument(sql, binds)) == Some(sql)
    ensures ReadString(JsonDocument(sql, binds)[|SqlKeyOpen|..]) == Some((sql, BindsMember(binds)))
  {
  }
}
