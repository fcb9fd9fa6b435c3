/** JSON string text (section 7 of RFC 8259): how json.dumps writes it without ASCII escaping, and how it is read back. */
module JsonStrings {
  import opened Domain

  function HexDigit(n: nat): char
    requires n < 16
  {
    "0123456789abcdef"[n]
  }

  /** json.dumps with ensure_ascii=False, one character at a time. */
  function Escape(c: char): string {
    if c == '\"' then "\\\""
    else if c == '\\' then "\\\\"
    else if c == '\n' then "\\n"
    else if c == '\r' then "\\r"
    else if c == '\t' then "\\t"
    else if c as int == 8 then "\\b"
    else if c as int == 12 then "\\f"
    else if c as int < 0x20 then "\\u00" + [HexDigit(c as int / 16), HexDigit(c as int % 16)]
    else [c]
  }

  function Escaped(s: string): string {
    if s == "" then "" else Escape(s[0]) + Escaped(s[1..])
  }

  function HexValue(c: char): Option<nat> {
    if '0' <= c <= '9' then Some(c as int - '0' as int)
    else if 'a' <= c <= 'f' then Some(c as int - 'a' as int + 10)
    else if 'A' <= c <= 'F' then Some(c as int - 'A' as int + 10)
    else None
  }

  function Hex4(s: string): (n: Option<nat>)
    ensures n.Some? ==> |s| >= 4 && n.value < 0x1_0000
  {
    if |s| < 4 then None
    else
      var a, b, c, d := HexValue(s[0]), HexValue(s[1]), HexValue(s[2]), HexValue(s[3]);
      if a.None? || b.None? || c.None? || d.None? then None
      else Some(a.value * 4096 + b.value * 256 + c.value * 16 + d.value)
  }

  function SimpleEscape(c: char): Option<char> {
    if c == '\"' then Some('\"')
    else if c == '\\' then Some('\\')
    else if c == '/' then Some('/')
    else if c == 'b' then Some(8 as char)
    else if c == 'f' then Some(12 as char)
    else if c == 'n' then Some('\n')
    else if c == 'r' then Some('\r')
    else if c == 't' then Some('\t')
    else None
  }

  /** One escape after its backslash: the character and what follows. A pair of surrogates is one character;
      a lone surrogate is not text and is refused. */
  function ReadEscape(s: string): (r: Option<(char, string)>)
    ensures r.Some? ==> |r.value.1| < |s|
  {
    if s == "" then None
    else if s[0] != 'u' then
      if SimpleEscape(s[0]).None? then None else Some((SimpleEscape(s[0]).value, s[1..]))
    else
      var high := Hex4(s[1..]);
      if high.None? then None
      else if !(0xD800 <= high.value < 0xE000) then Some((high.value as char, s[5..]))
      else if high.value >= 0xDC00 || |s| < 7 || s[5] != '\\' || s[6] != 'u' then None
      else
        var low := Hex4(s[7..]);
        if low.None? || !(0xDC00 <= low.value < 0xE000) then None
        else Some(((0x1_0000 + (high.value - 0xD800) * 0x400 + (low.value - 0xDC00)) as char, s[11..]))
  }

  /** A string after its opening quote, up to and including its closing quote; raw control characters are refused. */
  function ReadChars(s: string): (r: Option<(string, string)>)
    ensures r.Some? ==> |r.value.1| < |s|
  {
    if s == "" then None
    else if s[0] == '\"' then Some(("", s[1..]))
    else if s[0] as int < 0x20 then None
    else if s[0] != '\\' then
      var rest := ReadChars(s[1..]);
      if rest.None? then None else Some(([s[0]] + rest.value.0, rest.value.1))
    else
      var e := ReadEscape(s[1..]);
      if e.None? then None
      else
        var rest := ReadChars(e.value.1);
        if rest.None? then None else Some(([e.value.0] + rest.value.0, rest.value.1))
  }

  lemma EscapeReads(c: char, rest: string)
    requires Escape(c) != [c]
    ensures |Escape(c)| >= 2 && Escape(c)[0] == '\\'
    ensures ReadEscape(Escape(c)[1..] + rest) == Some((c, rest))
  {
    var s := Escape(c)[1..] + rest;
    if c as int < 0x20 && c as int !in {8, 9, 10, 12, 13} {
      var n := c as int;
      assert s[0] == 'u' && s[1] == '0' && s[2] == '0' && s[3] == HexDigit(n / 16) && s[4] == HexDigit(n % 16);
      HexReads(n / 16);
      HexReads(n % 16);
      assert s[1..][0] == '0' && s[1..][1] == '0' && s[1..][2] == HexDigit(n / 16) && s[1..][3] == HexDigit(n % 16);
      assert s[5..] == rest;
    } else {
      assert |Escape(c)| == 2 && s == [Escape(c)[1]] + rest && s[1..] == rest;
    }
  }

  lemma HexReads(n: nat)
    requires n < 16
    ensures HexValue(HexDigit(n)) == Some(n)
  {
  }

  lemma EscapePlain(c: char)
    requires Escape(c) == [c]
    ensures c as int >= 0x20 && c != '\"' && c != '\\'
  {
    assert |Escape(c)| == 1;
  }

  lemma ReadStep(c: char, tail: string)
    requires ReadChars(tail).Some?
    ensures ReadChars(Escape(c) + tail) == Some(([c] + ReadChars(tail).value.0, ReadChars(tail).value.1))
  {
    hide Escape, ReadEscape;
    var s := Escape(c) + tail;
    if Escape(c) == [c] {
      EscapePlain(c);
      assert s[0] == c && s[1..] == tail;
    } else {
      EscapeReads(c, tail);
      assert s[0] == '\\' && s[1..] == Escape(c)[1..] + tail;
    }
  }

  /** Reading undoes escaping, whatever follows the closing quote. */
  lemma {:induction false} ReadUndoesEscape(t: string, rest: string)
    ensures ReadChars(Escaped(t) + "\"" + rest) == Some((t, rest))
  {
    var s := Escaped(t) + "\"" + rest;
    if t == "" {
      assert s == "\"" + rest && s[1..] == rest;
    } else {
      hide Escape, ReadChars;
      var tail := Escaped(t[1..]) + "\"" + rest;
      ReadUndoesEscape(t[1..], rest);
      assert s == Escape(t[0]) + tail;
      ReadStep(t[0], tail);
      assert t == [t[0]] + t[1..];
    }
  }
}
