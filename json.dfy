/**
 * JSON values as Python's `json` module produces and reads them, and the
 * text `json.dumps(..., ensure_ascii=False)` writes for a string and for a
 * list of strings.
 */
module Json {
  import opened Base
  import opened Strings
  import opened Dicts

  datatype Json =
    | JNull
    | JBool(b: bool)
    | JInt(i: int)
    | JStr(s: string)
    | JArr(items: seq<Json>)
    | JObj(fields: Dict<Json>)

  function HexDigit(d: nat): (c: char)
    requires d < 16
  {
    "0123456789abcdef"[d]
  }

  function HexValue(c: char): Option<nat> {
    if '0' <= c <= '9' then Some(c as int - '0' as int)
    else if 'a' <= c <= 'f' then Some(c as int - 'a' as int + 10)
    else if 'A' <= c <= 'F' then Some(c as int - 'A' as int + 10)
    else None
  }

  lemma HexValueOfHexDigit(d: nat)
    requires d < 16
    ensures HexValue(HexDigit(d)) == Some(d)
  {
  }

  /** How one character is written inside a JSON string literal. */
  function EscapeChar(c: char): (e: string)
    ensures |e| > 0
  {
    if c == '"' then "\\\""
    else if c == '\\' then "\\\\"
    else if c == '\n' then "\\n"
    else if c == '\r' then "\\r"
    else if c == '\t' then "\\t"
    else if c == '\U{08}' then "\\b"
    else if c == '\U{0C}' then "\\f"
    else if c < ' ' then "\\u00" + [HexDigit(c as int / 16), HexDigit(c as int % 16)]
    else [c]
  }

  /** The body of the JSON string literal for `s`, without its quotes. */
  function Escape(s: string): string {
    if s == [] then "" else EscapeChar(s[0]) + Escape(s[1..])
  }

  /** `json.dumps(s)` for a string `s`. */
  function Quote(s: string): (q: string)
    ensures |q| >= 2 && q[0] == '"' && q[|q| - 1] == '"'
  {
    "\"" + Escape(s) + "\""
  }

  /** `json.dumps(items)` for a list of strings. */
  function DumpStrings(items: seq<string>): (text: string)
    ensures items == [] ==> text == "[]"
    ensures |text| >= 2 && text[0] == '[' && text[|text| - 1] == ']'
  {
    "[" + Join(QuoteAll(items), ", ") + "]"
  }

  function QuoteAll(items: seq<string>): (qs: seq<string>)
    ensures |qs| == |items|
    ensures forall i :: 0 <= i < |items| ==> qs[i] == Quote(items[i])
  {
    if items == [] then [] else [Quote(items[0])] + QuoteAll(items[1..])
  }

  /** Reads the body of a JSON string literal back; `None` where the text is not valid JSON. */
  function Unescape(t: string): Option<string>
    decreases |t|
  {
    if t == [] then Some([])
    else if t[0] == '"' || t[0] < ' ' then None
    else if t[0] != '\\' then
      match Unescape(t[1..])
      case Some(rest) => Some([t[0]] + rest)
      case None => None
    else if |t| < 2 then None
    else
      var c: Option<char> :=
        if t[1] == '"' then Some('"')
        else if t[1] == '\\' then Some('\\')
        else if t[1] == '/' then Some('/')
        else if t[1] == 'n' then Some('\n')
        else if t[1] == 'r' then Some('\r')
        else if t[1] == 't' then Some('\t')
        else if t[1] == 'b' then Some('\U{08}')
        else if t[1] == 'f' then Some('\U{0C}')
        else None;
      if c.Some? then
        match Unescape(t[2..])
        case Some(rest) => Some([c.value] + rest)
        case None => None
      else if t[1] == 'u' && |t| >= 6 then
        var h := [HexValue(t[2]), HexValue(t[3]), HexValue(t[4]), HexValue(t[5])];
        if h[0].Some? && h[1].Some? && h[2].Some? && h[3].Some?
           && h[0].value == 0 && h[1].value == 0 then
          match Unescape(t[6..])
          case Some(rest) => Some([(h[2].value * 16 + h[3].value) as char] + rest)
          case None => None
        else None
      else None
  }

  lemma {:induction false} UnescapeChar(c: char, rest: string)
    ensures Unescape(EscapeChar(c) + rest) ==
      match Unescape(rest)
      case Some(r) => Some([c] + r)
      case None => None
  {
    var e := EscapeChar(c);
    assert (e + rest)[|e|..] == rest;
    if c < ' ' && c != '\n' && c != '\r' && c != '\t' && c != '\U{08}' && c != '\U{0C}' {
      HexValueOfHexDigit(c as int / 16);
      HexValueOfHexDigit(c as int % 16);
    }
  }

  /** What `Escape` writes, `Unescape` reads back unchanged. */
  lemma {:induction false} UnescapeEscape(s: string)
    ensures Unescape(Escape(s)) == Some(s)
  {
    if s != [] {
      UnescapeEscape(s[1..]);
      UnescapeChar(s[0], Escape(s[1..]));
      assert [s[0]] + s[1..] == s;
    }
  }
}
