/**
 * JSON values as `json.loads` returns them and as `json.dumps` writes them
 * with its default settings (separators `", "` and `": "`, non-ASCII
 * characters written as `\u` escapes).
 */
module JsonValue {
  import opened Text

  /** A JSON value (numbers are integers). */
  datatype Json =
    | JNull
    | JBool(b: bool)
    | JNum(n: int)
    | JStr(s: string)
    | JArr(items: seq<Json>)
    | JObj(members: seq<(string, Json)>)   // one pair per key, in document order

  function Digit(d: nat): (c: char)
    requires d < 16
    ensures '0' <= c <= '9' || 'a' <= c <= 'f'
  {
    if d < 10 then ('0' as int + d) as char else ('a' as int + d - 10) as char
  }

  /** The decimal digits of `n`. */
  function NatToString(n: nat): (r: string)
    ensures r != [] && forall i :: 0 <= i < |r| ==> '0' <= r[i] <= '9'
  {
    if n < 10 then [Digit(n)] else NatToString(n / 10) + [Digit(n % 10)]
  }

  /** Python's `str(n)` of an integer. */
  function IntToString(n: int): (r: string)
    ensures r != [] && '\'' !in r
  {
    if n < 0 then "-" + NatToString(-n) else NatToString(n)
  }

  /** Four lower-case hex digits of a code unit. */
  function Hex4(u: nat): (r: string)
    requires u < 0x1_0000
    ensures |r| == 4 && forall i :: 0 <= i < 4 ==> Printable(r[i])
  {
    [Digit(u / 0x1000), Digit(u % 0x1000 / 0x100), Digit(u % 0x100 / 0x10), Digit(u % 0x10)]
  }

  /** The value of a hex digit, either case. */
  function HexValue(c: char): Option<nat> {
    if '0' <= c <= '9' then Some(c as int - '0' as int)
    else if 'a' <= c <= 'f' then Some(c as int - 'a' as int + 10)
    else if 'A' <= c <= 'F' then Some(c as int - 'A' as int + 10)
    else None
  }

  /** The code unit four hex digits stand for. */
  function Hex4Value(s: string): (r: Option<nat>)
    requires |s| == 4
    ensures r.Some? ==> r.value < 0x1_0000
  {
    match (HexValue(s[0]), HexValue(s[1]), HexValue(s[2]), HexValue(s[3]))
    case (Some(a), Some(b), Some(c), Some(d)) =>
      if a < 16 && b < 16 && c < 16 && d < 16 then Some(a * 0x1000 + b * 0x100 + c * 0x10 + d) else None
    case _ => None
  }

  lemma HexValueDigit(d: nat)
    requires d < 16
    ensures HexValue(Digit(d)) == Some(d)
  {
  }

  /** Reading four hex digits back gives the code unit they were written from. */
  lemma Hex4RoundTrip(u: nat)
    requires u < 0x1_0000
    ensures Hex4Value(Hex4(u)) == Some(u)
  {
    var a, b, c, d := u / 0x1000, u % 0x1000 / 0x100, u % 0x100 / 0x10, u % 0x10;
    HexValueDigit(a);
    HexValueDigit(b);
    HexValueDigit(c);
    HexValueDigit(d);
    assert u % 0x1000 == b * 0x100 + u % 0x100;
    assert u % 0x100 == c * 0x10 + d;
  }

  /** The characters `json.dumps` writes by default: printable ASCII. */
  predicate Printable(c: char) {
    ' ' <= c <= '~'
  }

  /** One character inside a dumped string. */
  function EscapeChar(c: char): (r: string)
    ensures r != [] && (c != '\'' ==> '\'' !in r) && (c == '\'' ==> r == "'")
    ensures forall i :: 0 <= i < |r| ==> Printable(r[i])
  {
    if c == '"' then "\\\""
    else if c == '\\' then "\\\\"
    else if c == '\n' then "\\n"
    else if c == '\r' then "\\r"
    else if c == '\t' then "\\t"
    else if c == '\U{8}' then "\\b"
    else if c == '\U{C}' then "\\f"
    else if (c as int) < 0x20 || 0x7F <= (c as int) < 0x1_0000 then "\\u" + Hex4(c as int)
    else if (c as int) >= 0x1_0000 then
      var v := c as int - 0x1_0000;
      "\\u" + Hex4(0xD800 + v / 0x400) + "\\u" + Hex4(0xDC00 + v % 0x400)
    else [c]
  }

  /**
   * A dumped string body: printable ASCII only, an apostrophe written as it
   * is (`UnescapeString` reads it back, `StringRoundTrip`).
   */
  function EscapeString(s: string): (r: string)
    ensures Count(r, '\'') == Count(s, '\'')
    ensures forall i :: 0 <= i < |r| ==> Printable(r[i])
  {
    if s == [] then []
    else
      CountConcat(EscapeChar(s[0]), EscapeString(s[1..]), '\'');
      EscapeCharCount(s[0]);
      EscapeChar(s[0]) + EscapeString(s[1..])
  }

  /** A code point below 0x110000 outside the surrogates, as a character. */
  function ScalarChar(u: int): Option<char> {
    if 0 <= u < 0xD800 || 0xE000 <= u < 0x11_0000 then Some(u as char) else None
  }

  /** `c` in front of a decoded rest. */
  function Prepend(c: char, rest: Option<string>): Option<string> {
    match rest case Some(t) => Some([c] + t) case None => None
  }

  /**
   * Reads a JSON string body back, as `json.loads` does between the
   * quotes: the two-character escapes, `\uXXXX`, and a surrogate pair of
   * two `\u` escapes for a character above U+FFFF. `None`: not a body.
   */
  function UnescapeString(s: string): Option<string>
    decreases |s|
  {
    if s == [] then Some([])
    else if s[0] == '"' || (s[0] as int) < 0x20 then None
    else if s[0] != '\\' then Prepend(s[0], UnescapeString(s[1..]))
    else if |s| < 2 then None
    else if s[1] == 'u' then UnescapeUnit(s)
    else
      var e := s[1];
      var c := if e == '"' then Some('"') else if e == '\\' then Some('\\') else if e == '/' then Some('/')
        else if e == 'n' then Some('\n') else if e == 'r' then Some('\r') else if e == 't' then Some('\t')
        else if e == 'b' then Some('\U{8}') else if e == 'f' then Some('\U{C}') else None;
      if c.None? then None else Prepend(c.value, UnescapeString(s[2..]))
  }

  /** The `\uXXXX` case of `UnescapeString`. */
  function UnescapeUnit(s: string): Option<string>
    requires |s| >= 2 && s[0] == '\\' && s[1] == 'u'
    decreases |s|, 0
  {
    if |s| < 6 then None
    else match Hex4Value(s[2..6])
      case None => None
      case Some(hi) =>
        if 0xD800 <= hi < 0xDC00 then
          if |s| < 12 || s[6..8] != "\\u" then None
          else match Hex4Value(s[8..12])
            case None => None
            case Some(lo) =>
              if 0xDC00 <= lo < 0xE000 then
                var c := ScalarChar(0x1_0000 + (hi - 0xD800) * 0x400 + (lo - 0xDC00));
                if c.None? then None else Prepend(c.value, UnescapeString(s[12..]))
              else None
        else
          var c := ScalarChar(hi);
          if c.None? then None else Prepend(c.value, UnescapeString(s[6..]))
  }

  /** Decoding a dumped string body gives back the string. */
  lemma {:induction false} StringRoundTrip(s: string)
    ensures UnescapeString(EscapeString(s)) == Some(s)
  {
    if s != [] {
      StringRoundTrip(s[1..]);
      EscapeCharRoundTrip(s[0], EscapeString(s[1..]));
      assert [s[0]] + s[1..] == s;
    }
  }

  /** One escaped character in front of any text is read back first. */
  lemma EscapeCharRoundTrip(c: char, rest: string)
    ensures UnescapeString(EscapeChar(c) + rest) == Prepend(c, UnescapeString(rest))
  {
    var e := EscapeChar(c) + rest;
    var u := c as int;
    if c == '"' || c == '\\' || c == '\n' || c == '\r' || c == '\t' || c == '\U{8}' || c == '\U{C}' {
      assert e[0] == '\\' && e[2..] == rest;
    } else if u < 0x20 || 0x7F <= u < 0x1_0000 {
      UnitRoundTrip(c, rest);
    } else if u >= 0x1_0000 {
      PairRoundTrip(c, rest);
    } else {
      assert e[0] == c && e[1..] == rest;
    }
  }

  lemma UnitRoundTrip(c: char, rest: string)
    requires (c as int) < 0x20 || 0x7F <= (c as int) < 0x1_0000
    requires c != '"' && c != '\\' && c != '\n' && c != '\r' && c != '\t' && c != '\U{8}' && c != '\U{C}'
    ensures UnescapeString(EscapeChar(c) + rest) == Prepend(c, UnescapeString(rest))
  {
    var e := EscapeChar(c) + rest;
    assert e == "\\u" + Hex4(c as int) + rest;
    assert e[2..6] == Hex4(c as int) && e[6..] == rest;
    Hex4RoundTrip(c as int);
  }

  lemma PairRoundTrip(c: char, rest: string)
    requires (c as int) >= 0x1_0000
    ensures UnescapeString(EscapeChar(c) + rest) == Prepend(c, UnescapeString(rest))
  {
    var v := c as int - 0x1_0000;
    var hi, lo := 0xD800 + v / 0x400, 0xDC00 + v % 0x400;
    PairArithmetic(c as int);
    assert EscapeChar(c) == "\\u" + Hex4(hi) + "\\u" + Hex4(lo);
    UnescapePair(hi, lo, rest);
  }

  /** The surrogate pair of a code point above U+FFFF, and back. */
  lemma PairArithmetic(u: int)
    requires 0x1_0000 <= u < 0x11_0000
    ensures var v := u - 0x1_0000;
      && 0xD800 <= 0xD800 + v / 0x400 < 0xDC00
      && 0xDC00 <= 0xDC00 + v % 0x400 < 0xE000
      && 0x1_0000 + v / 0x400 * 0x400 + v % 0x400 == u
  {
  }

  /** A surrogate pair of `\u` escapes reads back as one character. */
  lemma UnescapePair(hi: nat, lo: nat, rest: string)
    requires 0xD800 <= hi < 0xDC00 && 0xDC00 <= lo < 0xE000
    ensures var u := 0x1_0000 + (hi - 0xD800) * 0x400 + (lo - 0xDC00);
      0x1_0000 <= u < 0x11_0000 &&
      UnescapeString("\\u" + Hex4(hi) + "\\u" + Hex4(lo) + rest) == Prepend(u as char, UnescapeString(rest))
  {
    var e := "\\u" + Hex4(hi) + "\\u" + Hex4(lo) + rest;
    assert e[0] == '\\' && e[1] == 'u';
    assert e[2..6] == Hex4(hi) && e[6..8] == "\\u" && e[8..12] == Hex4(lo) && e[12..] == rest;
    Hex4RoundTrip(hi);
    Hex4RoundTrip(lo);
  }

  lemma {:induction false} CountAbsent(s: string)
    requires '\'' !in s
    ensures Count(s, '\'') == 0
  {
    if s != [] {
      assert s[0] != '\'';
      CountAbsent(s[1..]);
    }
  }

  lemma EscapeCharCount(c: char)
    ensures Count(EscapeChar(c), '\'') == if c == '\'' then 1 else 0
  {
    if c == '\'' {
      assert Count(EscapeChar(c)[1..], '\'') == 0;
    } else {
      CountAbsent(EscapeChar(c));
    }
  }

  function Quote(s: string): string {
    "\"" + EscapeString(s) + "\""
  }

  /** `json.dumps(j)`. */
  function Dumps(j: Json): (r: string)
    ensures r != []
  {
    match j
    case JNull => "null"
    case JBool(b) => if b then "true" else "false"
    case JNum(n) => IntToString(n)
    case JStr(s) => Quote(s)
    case JArr(items) =>
      "[" + Join(seq(|items|, i requires 0 <= i < |items| => Dumps(items[i])), ", ") + "]"
    case JObj(members) =>
      "{" + Join(seq(|members|, i requires 0 <= i < |members| => Member(members[i], j)), ", ") + "}"
  }

  function Member(m: (string, Json), parent: Json): string
    requires m.1 < parent
    decreases parent, 0
  {
    Quote(m.0) + ": " + Dumps(m.1)
  }
}
