/** The text of the one request a session sends, `JSON.stringify({ url })`,
    and a reference decoder that reads it back the way the backend's
    `json.loads` does for this shape. */
module JsonRequest {
  import opened Wrappers

  /** The characters JSON.stringify writes before and after the escaped url. */
  const Prefix: string := "{\"url\":\""
  const Suffix: string := "\"}"

  /** A lower-case hexadecimal digit, as JSON.stringify writes them in `\u00XX`. */
  function HexDigit(d: nat): (c: char)
    requires d < 16
    ensures HexValue(c) == Some(d)
  {
    if d < 10 then ('0' as int + d) as char else ('a' as int + d - 10) as char
  }

  /** The value of a hexadecimal digit of either case, or None for any other character. */
  function HexValue(c: char): (r: Option<nat>)
    ensures r.Some? ==> r.value < 16
  {
    if '0' <= c <= '9' then Some(c as int - '0' as int)
    else if 'a' <= c <= 'f' then Some(c as int - 'a' as int + 10)
    else if 'A' <= c <= 'F' then Some(c as int - 'A' as int + 10)
    else None
  }

  /** How JSON.stringify writes one character inside a string literal:
      the quote and the backslash get a backslash, the five control
      characters with a short form use it, every other control character
      becomes `\u00XX`, and everything else is written as itself. */
  function EscapeChar(c: char): (r: string)
    ensures 1 <= |r| <= 6
    ensures forall i :: 0 <= i < |r| ==> r[i] as int >= 0x20
    ensures r[0] != '"'
    ensures |r| == 1 <==> r == [c]
  {
    if c == '"' then ['\\', '"']
    else if c == '\\' then ['\\', '\\']
    else if c as int == 0x08 then ['\\', 'b']
    else if c as int == 0x0C then ['\\', 'f']
    else if c == '\n' then ['\\', 'n']
    else if c == '\r' then ['\\', 'r']
    else if c == '\t' then ['\\', 't']
    else if c as int < 0x20 then ['\\', 'u', '0', '0', HexDigit(c as int / 16), HexDigit(c as int % 16)]
    else [c]
  }

  /** The body of the string literal JSON.stringify writes for `s`. */
  function Escape(s: string): (r: string)
    ensures |r| >= |s|
    ensures forall i :: 0 <= i < |r| ==> r[i] as int >= 0x20
  {
    if s == [] then [] else EscapeChar(s[0]) + Escape(s[1..])
  }

  /** Reads one escape sequence at the head of `s`: the character it stands
      for and how many characters it takes, or None when it is not a JSON
      escape. A `\u` escape naming a surrogate is refused (surrogate pairs
      are not read). */
  function ReadEscape(s: string): (r: Option<(char, nat)>)
    requires |s| >= 1 && s[0] == '\\'
    ensures r.Some? ==> 2 <= r.value.1 <= |s|
  {
    if |s| < 2 then None
    else if s[1] == '"' then Some(('"', 2))
    else if s[1] == '\\' then Some(('\\', 2))
    else if s[1] == '/' then Some(('/', 2))
    else if s[1] == 'b' then Some((0x08 as char, 2))
    else if s[1] == 'f' then Some((0x0C as char, 2))
    else if s[1] == 'n' then Some(('\n', 2))
    else if s[1] == 'r' then Some(('\r', 2))
    else if s[1] == 't' then Some(('\t', 2))
    else if s[1] == 'u' && |s| >= 6 then
      match (HexValue(s[2]), HexValue(s[3]), HexValue(s[4]), HexValue(s[5]))
      case (Some(a), Some(b), Some(c), Some(d)) =>
        var v := ((a * 16 + b) * 16 + c) * 16 + d;
        if v < 0xD800 || 0xE000 <= v then Some((v as char, 6)) else None
      case _ => None
    else None
  }

  /** The characters a JSON string-literal body stands for, or None when it
      holds a raw quote, a raw control character or a bad escape. */
  function Unescape(s: string): (r: Option<string>)
    decreases |s|
  {
    if s == [] then Some([])
    else if s[0] == '"' || s[0] as int < 0x20 then None
    else if s[0] != '\\' then
      match Unescape(s[1..])
      case Some(t) => Some([s[0]] + t)
      case None => None
    else
      match ReadEscape(s)
      case None => None
      case Some((c, n)) =>
        match Unescape(s[n..])
        case Some(t) => Some([c] + t)
        case None => None
  }

  /** The request text a session sends once its connection opens. */
  function Encode(url: string): (text: string)
    ensures |text| >= |Prefix| + |Suffix| + |url|
    ensures text[..|Prefix|] == Prefix && text[|text| - |Suffix|..] == Suffix
  {
    Prefix + Escape(url) + Suffix
  }

  /** Reads the url back from a request text of exactly that shape. */
  function Decode(text: string): (url: Option<string>)
  {
    if |text| >= |Prefix| + |Suffix| && text[..|Prefix|] == Prefix && text[|text| - |Suffix|..] == Suffix
    then Unescape(text[|Prefix|..|text| - |Suffix|])
    else None
  }

  /** Reading back the escape of one character gives that character and
      leaves the rest of the text to be read. */
  lemma UnescapeEscapeChar(c: char, rest: string)
    ensures Unescape(EscapeChar(c) + rest) == match Unescape(rest)
      case Some(t) => Some([c] + t)
      case None => None
  {
    var e := EscapeChar(c);
    assert (e + rest)[0] == e[0];
    if |e| == 1 {
      assert (e + rest)[1..] == rest;
    } else {
      assert e[0] == '\\';
      assert (e + rest)[|e|..] == rest;
      if c as int < 0x20 && c as int != 0x08 && c as int != 0x0C && c != '\n' && c != '\r' && c != '\t' {
        var s := e + rest;
        assert s[1] == 'u' && s[2] == '0' && s[3] == '0';
        assert s[4] == HexDigit(c as int / 16) && s[5] == HexDigit(c as int % 16);
        assert ((0 * 16 + 0) * 16 + c as int / 16) * 16 + c as int % 16 == c as int;
        assert ReadEscape(s) == Some((c, 6));
      }
    }
  }

  /** Unescape undoes Escape, for every string. */
  lemma {:induction false} UnescapeEscape(s: string)
    ensures Unescape(Escape(s)) == Some(s)
  {
    if s != [] {
      UnescapeEscape(s[1..]);
      UnescapeEscapeChar(s[0], Escape(s[1..]));
      assert [s[0]] + s[1..] == s;
    }
  }

  /** The backend reads back exactly the url the page put in its request. */
  lemma DecodeEncode(url: string)
    ensures Decode(Encode(url)) == Some(url)
  {
    var text := Encode(url);
    assert text[|Prefix|..|text| - |Suffix|] == Escape(url);
    UnescapeEscape(url);
  }
}
