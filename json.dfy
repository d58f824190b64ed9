/**
 * JSON string literals as `JSON.stringify` writes them (ECMA-262,
 * QuoteJSONString) and as a JSON parser reads them back (RFC 8259, section 7).
 */
module Json {
  import opened Wrappers

  const HexDigits: string := "0123456789abcdef"

  function HexValue(c: char): Option<nat>
  {
    if '0' <= c <= '9' then Some(c as int - '0' as int)
    else if 'a' <= c <= 'f' then Some(c as int - 'a' as int + 10)
    else if 'A' <= c <= 'F' then Some(c as int - 'A' as int + 10)
    else None
  }

  /** The escape sequence `JSON.stringify` writes for one character. */
  function EscapeChar(c: char): (r: string)
    ensures |r| >= 1
    ensures r == [c] <==> (c != '"' && c != '\\' && c as int >= 0x20)
  {
    if c == '"' then "\\\""
    else if c == '\\' then "\\\\"
    else if c == '\U{8}' then "\\b"
    else if c == '\t' then "\\t"
    else if c == '\n' then "\\n"
    else if c == '\U{C}' then "\\f"
    else if c == '\r' then "\\r"
    else if c as int < 0x20 then "\\u00" + [HexDigits[c as int / 16], HexDigits[c as int % 16]]
    else [c]
  }

  function Escape(s: string): string
  {
    if s == [] then "" else EscapeChar(s[0]) + Escape(s[1..])
  }

  /** `JSON.stringify(s)` for a string `s`. */
  function Quote(s: string): (r: string)
    ensures |r| >= 2 && r[0] == '"' && r[|r| - 1] == '"'
  {
    "\"" + Escape(s) + "\""
  }

  /** The character a one-letter escape `\x` stands for. */
  function SimpleEscape(e: char): Option<char>
  {
    if e == '"' then Some('"')
    else if e == '\\' then Some('\\')
    else if e == '/' then Some('/')
    else if e == 'b' then Some('\U{8}')
    else if e == 'f' then Some('\U{C}')
    else if e == 'n' then Some('\n')
    else if e == 'r' then Some('\r')
    else if e == 't' then Some('\t')
    else None
  }

  /** The character named by four hex digits, when it is a Unicode scalar value. */
  function Hex4(h: string): Option<char>
    requires |h| == 4
  {
    match (HexValue(h[0]), HexValue(h[1]), HexValue(h[2]), HexValue(h[3]))
    case (Some(a), Some(b), Some(c), Some(d)) =>
      var v := ((a * 16 + b) * 16 + c) * 16 + d;
      if v < 0xD800 || 0xE000 <= v then Some(v as char) else None
    case _ => None
  }

  function Cons(c: char, r: Option<(string, string)>): Option<(string, string)>
  {
    match r
    case Some((v, rest)) => Some(([c] + v, rest))
    case None => None
  }

  /**
   * Reads the body of a string literal up to its closing quote: the decoded
   * value and the text after the quote.
   */
  function ParseBody(t: string): Option<(string, string)>
    decreases |t|
  {
    if t == [] then None
    else if t[0] == '"' then Some(("", t[1..]))
    else if t[0] == '\\' then
      if |t| < 2 then None
      else if t[1] == 'u' then
        if |t| < 6 then None
        else match Hex4(t[2..6])
             case Some(c) => Cons(c, ParseBody(t[6..]))
             case None => None
      else match SimpleEscape(t[1])
           case Some(c) => Cons(c, ParseBody(t[2..]))
           case None => None
    else if t[0] as int < 0x20 then None
    else Cons(t[0], ParseBody(t[1..]))
  }

  /** Reads one string literal at the start of `t`. */
  function ParseString(t: string): Option<(string, string)>
  {
    if t != [] && t[0] == '"' then ParseBody(t[1..]) else None
  }

  lemma EscapeCharRead(c: char, rest: string)
    ensures ParseBody(EscapeChar(c) + rest) == Cons(c, ParseBody(rest))
  {
    var e := EscapeChar(c);
    if c as int < 0x20 && c != '\U{8}' && c != '\t' && c != '\n' && c != '\U{C}' && c != '\r' {
      UnicodeEscapeRead(c, rest);
    } else if |e| == 2 {
      var t := e + rest;
      assert t[2..] == rest;
    } else {
      var t := e + rest;
      assert t[1..] == rest;
    }
  }

  /** A control character without a short escape is written `\u00XY` and read back. */
  lemma UnicodeEscapeRead(c: char, rest: string)
    requires c as int < 0x20 && c != '\U{8}' && c != '\t' && c != '\n' && c != '\U{C}' && c != '\r'
    ensures ParseBody(EscapeChar(c) + rest) == Cons(c, ParseBody(rest))
  {
    var hi, lo := c as int / 16, c as int % 16;
    var t := EscapeChar(c) + rest;
    assert EscapeChar(c) == "\\u00" + [HexDigits[hi], HexDigits[lo]];
    assert t[0] == '\\' && t[1] == 'u';
    assert t[2..6] == ['0', '0', HexDigits[hi], HexDigits[lo]];
    HexDigitValue(hi);
    HexDigitValue(lo);
    assert t[6..] == rest;
  }

  lemma HexDigitValue(d: nat)
    requires d < 16
    ensures HexValue(HexDigits[d]) == Some(d)
  {
    if d < 10 {
      assert HexDigits[d] == ('0' as int + d) as char;
    } else {
      assert HexDigits[d] == ('a' as int + d - 10) as char;
    }
  }

  lemma {:induction false} EscapeRead(s: string, rest: string)
    ensures ParseBody(Escape(s) + "\"" + rest) == Some((s, rest))
    decreases |s|
  {
    if s == [] {
      assert Escape(s) + "\"" + rest == "\"" + rest;
    } else {
      var tail := Escape(s[1..]) + "\"" + rest;
      assert Escape(s) == EscapeChar(s[0]) + Escape(s[1..]);
      assert Escape(s) + "\"" + rest == EscapeChar(s[0]) + tail;
      EscapeCharRead(s[0], tail);
      EscapeRead(s[1..], rest);
      assert [s[0]] + s[1..] == s;
      assert Cons(s[0], Some((s[1..], rest))) == Some((s, rest));
    }
  }

  /** Every string written by `JSON.stringify` reads back as itself. */
  lemma QuoteRoundTrip(s: string, rest: string)
    ensures ParseString(Quote(s) + rest) == Some((s, rest))
  {
    assert (Quote(s) + rest)[1..] == Escape(s) + "\"" + rest;
    EscapeRead(s, rest);
  }
}
