/** The JSON text a build worker puts on the bus for one log line:
    `JSON.stringify({ log })` for a string `log` (build-server/script.js:22).
    Encoding follows the ECMAScript QuoteJSONString operation for Unicode
    scalar values; decoding accepts the escapes of JSON strings and is the
    partner that shows no log text is altered on its way. */
module Json {

  import opened Wrappers

  /** The digit JSON.stringify writes for a value below sixteen (lower case). */
  function HexDigit(d: nat): (c: char)
    requires d < 16
    ensures '0' <= c <= '9' || 'a' <= c <= 'f'
    ensures HexValue(c) == Some(d)
  {
    if d < 10 then ('0' as int + d) as char else ('a' as int + d - 10) as char
  }

  /** The value of a hexadecimal digit of a `\u` escape, of either case. */
  function HexValue(c: char): Option<nat>
  {
    if '0' <= c <= '9' then Some(c as int - '0' as int)
    else if 'a' <= c <= 'f' then Some(c as int - 'a' as int + 10)
    else if 'A' <= c <= 'F' then Some(c as int - 'A' as int + 10)
    else None
  }

  /** How JSON.stringify writes one character inside a string literal: the
      quote and the backslash are escaped, the five control characters with
      a short escape get it, the other control characters below U+0020 become
      `\u00hh`, everything else is copied. */
  function EscapeChar(c: char): string
  {
    if c == '"' then ['\\', '"']
    else if c == '\\' then ['\\', '\\']
    else if c as int == 0x08 then ['\\', 'b']
    else if c as int == 0x09 then ['\\', 't']
    else if c as int == 0x0A then ['\\', 'n']
    else if c as int == 0x0C then ['\\', 'f']
    else if c as int == 0x0D then ['\\', 'r']
    else if c as int < 0x20 then ['\\', 'u', '0', '0', HexDigit(c as int / 16), HexDigit(c as int % 16)]
    else [c]
  }

  /** The body of the string literal for `s`, without the surrounding quotes. */
  function Escaped(s: string): string
  {
    if s == [] then [] else EscapeChar(s[0]) + Escaped(s[1..])
  }

  /** `JSON.stringify(s)` for a string `s`. */
  function Quote(s: string): string
  {
    "\"" + Escaped(s) + "\""
  }

  /** `JSON.stringify({ log })`: an object with the single member `log`. */
  function Payload(log: string): string
  {
    "{\"log\":" + Quote(log) + "}"
  }

  /** The character denoted by the escape sequence after a backslash at the
      start of `s`, and how many characters of `s` the sequence takes. */
  function EscapeSequence(s: string): (r: Option<(char, nat)>)
    ensures r.Some? ==> 1 <= r.value.1 <= |s|
  {
    if |s| == 0 then None
    else if s[0] == '"' then Some(('"', 1))
    else if s[0] == '\\' then Some(('\\', 1))
    else if s[0] == '/' then Some(('/', 1))
    else if s[0] == 'b' then Some((0x08 as char, 1))
    else if s[0] == 't' then Some((0x09 as char, 1))
    else if s[0] == 'n' then Some((0x0A as char, 1))
    else if s[0] == 'f' then Some((0x0C as char, 1))
    else if s[0] == 'r' then Some((0x0D as char, 1))
    else if s[0] == 'u' && |s| >= 5 then
      match (HexValue(s[1]), HexValue(s[2]), HexValue(s[3]), HexValue(s[4]))
      case (Some(a), Some(b), Some(c), Some(d)) =>
        var n := 4096 * a + 256 * b + 16 * c + d;
        // a lone surrogate is not a character of the model
        if n < 0xD800 || 0xE000 <= n <= 0xFFFF then Some((n as char, 5)) else None
      case _ => None
    else None
  }

  /** Reads the rest of a JSON string literal whose opening quote has been
      consumed: the decoded text, and what follows the closing quote. */
  function ParseChars(s: string): Option<(string, string)>
    decreases |s|
  {
    if s == [] then None
    else if s[0] == '"' then Some(([], s[1..]))
    else if s[0] == '\\' then
      match EscapeSequence(s[1..])
      case None => None
      case Some((c, k)) => Prepend(c, ParseChars(s[1 + k..]))
    else if s[0] as int < 0x20 then None
    else Prepend(s[0], ParseChars(s[1..]))
  }

  function Prepend(c: char, r: Option<(string, string)>): Option<(string, string)>
  {
    match r
    case None => None
    case Some((t, rest)) => Some(([c] + t, rest))
  }

  /** Reads a payload back: the `log` text of a one-member object written the
      way JSON.stringify writes it, or None. */
  function DecodePayload(p: string): Option<string>
  {
    if |p| >= 8 && p[..8] == "{\"log\":\"" then
      match ParseChars(p[8..])
      case Some((t, rest)) => if rest == "}" then Some(t) else None
      case None => None
    else None
  }

  /** One escaped character is read back as itself, whatever follows it. */
  lemma EscapeCharParses(c: char, rest: string)
    ensures ParseChars(EscapeChar(c) + rest) == Prepend(c, ParseChars(rest))
  {
    var s := EscapeChar(c) + rest;
    if c == '"' || c == '\\' || c as int in {0x08, 0x09, 0x0A, 0x0C, 0x0D} {
      assert s[1..][..1] == EscapeChar(c)[1..];
      assert s[2..] == rest;
    } else if c as int < 0x20 {
      var hi, lo := c as int / 16, c as int % 16;
      assert s[1..][..5] == ['u', '0', '0', HexDigit(hi), HexDigit(lo)];
      assert s[6..] == rest;
      assert 4096 * 0 + 256 * 0 + 16 * hi + lo == c as int;
    } else {
      assert s[1..] == rest;
    }
  }

  /** The escaped body of `t` followed by a closing quote reads back as `t`. */
  lemma {:induction false} EscapedParses(t: string, rest: string)
    ensures ParseChars(Escaped(t) + "\"" + rest) == Some((t, rest))
  {
    if t == [] {
      assert Escaped(t) + "\"" + rest == "\"" + rest;
    } else {
      var tail := Escaped(t[1..]) + "\"" + rest;
      assert Escaped(t) + "\"" + rest == EscapeChar(t[0]) + tail;
      EscapeCharParses(t[0], tail);
      EscapedParses(t[1..], rest);
      assert [t[0]] + t[1..] == t;
    }
  }

  /** Round trip: decoding a published payload gives back the log text. */
  lemma PayloadRoundTrip(log: string)
    ensures DecodePayload(Payload(log)) == Some(log)
  {
    var p := Payload(log);
    assert p == "{\"log\":\"" + (Escaped(log) + "\"" + "}");
    assert p[..8] == "{\"log\":\"";
    assert p[8..] == Escaped(log) + "\"" + "}";
    EscapedParses(log, "}");
  }

  /** Two different log texts never share a payload. */
  lemma PayloadInjective(a: string, b: string)
    requires Payload(a) == Payload(b)
    ensures a == b
  {
    PayloadRoundTrip(a);
    PayloadRoundTrip(b);
  }
}
