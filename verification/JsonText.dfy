/** JSON text as the gateway prints it: string literals, and flat sequences of tokens. */
module JsonText {
  import opened Text

  // ---- string literals ----

  const HexDigits := "0123456789abcdef"

  function Hex(n: nat): char requires n < 16 { HexDigits[n] }

  /** How one character is written inside a literal: as it is, after a backslash, or as
      four hex digits. */
  datatype Form = Plain | Short(letter: char) | Long(a: char, b: char, c: char, d: char)

  function FormOf(c: char): Form {
    if c == '"' || c == '\\' then Short(c)
    else if c == '\n' then Short('n') else if c == '\r' then Short('r') else if c == '\t' then Short('t')
    else if c == '\U{8}' then Short('b') else if c == '\U{C}' then Short('f')
    else if c < ' ' || c == '<' || c == '>' || c == '&' then Long('0', '0', Hex(c as int / 16), Hex(c as int % 16))
    else if c == '\U{2028}' then Long('2', '0', '2', '8') else if c == '\U{2029}' then Long('2', '0', '2', '9')
    else Plain
  }

  function Written(f: Form, c: char): (r: string)
    ensures r != ""
  {
    match f
    case Plain => [c]
    case Short(letter) => ['\\', letter]
    case Long(w, x, y, z) => ['\\', 'u', w, x, y, z]
  }

  function EscapeChar(c: char): (r: string)
    ensures r != ""
  {
    Written(FormOf(c), c)
  }

  function Escape(s: string): string {
    if s == "" then "" else EscapeChar(s[0]) + Escape(s[1..])
  }

  function Quote(s: string): string { "\"" + (Escape(s) + "\"") }

  // ---- reading a literal back ----

  function HexValue(c: char): Option<nat> {
    if '0' <= c <= '9' then Some(c as int - '0' as int)
    else if 'a' <= c <= 'f' then Some(c as int - 'a' as int + 10)
    else if 'A' <= c <= 'F' then Some(c as int - 'A' as int + 10)
    else None
  }

  /** The character that four hex digits stand for; surrogates stand for none. */
  function CodeUnit(a: char, b: char, c: char, d: char): Option<char> {
    var (w, x, y, z) := (HexValue(a), HexValue(b), HexValue(c), HexValue(d));
    if w.None? || x.None? || y.None? || z.None? then None
    else
      var n := w.value * 0x1000 + x.value * 0x100 + y.value * 0x10 + z.value;
      if n < 0xD800 || 0xE000 <= n < 0x10000 then Some(n as char) else None
  }

  function ShortEscape(c: char): Option<char> {
    if c == '"' || c == '\\' || c == '/' then Some(c)
    else if c == 'n' then Some('\n') else if c == 'r' then Some('\r') else if c == 't' then Some('\t')
    else if c == 'b' then Some('\U{8}') else if c == 'f' then Some('\U{C}')
    else None
  }

  /** The first character of a literal's inside and how much of it that takes. */
  function FirstChar(s: string): (r: Option<(char, nat)>)
    ensures r.Some? ==> 0 < r.value.1 <= |s|
  {
    if s == "" || s[0] == '"' || s[0] < ' ' then None
    else if s[0] != '\\' then Some((s[0], 1))
    else if |s| < 2 then None
    else if s[1] != 'u' then (if ShortEscape(s[1]).Some? then Some((ShortEscape(s[1]).value, 2)) else None)
    else if |s| < 6 then None
    else
      var c := CodeUnit(s[2], s[3], s[4], s[5]);
      if c.Some? then Some((c.value, 6)) else None
  }

  function Unescape(s: string): Option<string>
    decreases |s|
  {
    if s == "" then Some("")
    else
      var first := FirstChar(s);
      if first.None? then None
      else
        var rest := Unescape(s[first.value.1..]);
        if rest.None? then None else Some([first.value.0] + rest.value)
  }

  function Unquote(s: string): Option<string> {
    if |s| >= 2 && s[0] == '"' && s[|s| - 1] == '"' then Unescape(s[1..|s| - 1]) else None
  }

  predicate Inert(c: char) { c != '"' && c != '\\' }

  /** A form that reads back as the character. */
  predicate Reads(f: Form, c: char) {
    match f
    case Plain => Inert(c) && c >= ' '
    case Short(letter) => letter != 'u' && ShortEscape(letter) == Some(c)
    case Long(w, x, y, z) => Inert(w) && Inert(x) && Inert(y) && Inert(z) && CodeUnit(w, x, y, z) == Some(c)
  }

  lemma HexReads(n: nat)
    requires n < 16
    ensures HexValue(Hex(n)) == Some(n) && Inert(Hex(n))
  {
  }

  lemma FormReads(c: char)
    ensures Reads(FormOf(c), c)
  {
    if FormOf(c).Long? && c < '\U{100}' {
      HexReads(c as int / 16);
      HexReads(c as int % 16);
      HexReads(0);
    }
  }

  lemma PlainReads(c: char, rest: string)
    requires Reads(Plain, c)
    ensures FirstChar(Written(Plain, c) + rest) == Some((c, 1))
  {
  }

  lemma ShortReads(letter: char, c: char, rest: string)
    requires Reads(Short(letter), c)
    ensures FirstChar(Written(Short(letter), c) + rest) == Some((c, 2))
  {
  }

  lemma LongReads(w: char, x: char, y: char, z: char, c: char, rest: string)
    requires Reads(Long(w, x, y, z), c)
    ensures FirstChar(Written(Long(w, x, y, z), c) + rest) == Some((c, 6))
  {
  }

  lemma WrittenReads(f: Form, c: char, rest: string)
    requires Reads(f, c)
    ensures FirstChar(Written(f, c) + rest) == Some((c, |Written(f, c)|))
  {
    match f
    case Plain => PlainReads(c, rest);
    case Short(letter) => ShortReads(letter, c, rest);
    case Long(w, x, y, z) => LongReads(w, x, y, z, c, rest);
  }

  /** Writing a string as a literal and reading it back gives the string. */
  lemma {:induction false} QuoteReads(v: string)
    ensures Unescape(Escape(v)) == Some(v) && Unquote(Quote(v)) == Some(v)
  {
    if v != "" {
      QuoteReads(v[1..]);
      FormReads(v[0]);
      WrittenReads(FormOf(v[0]), v[0], Escape(v[1..]));
      assert Escape(v)[|EscapeChar(v[0])|..] == Escape(v[1..]);
      assert v == [v[0]] + v[1..];
    }
    assert Quote(v)[1..|Quote(v)| - 1] == Escape(v);
  }

  // ---- finding where a literal ends ----

  /** Offset of the closing quote of the literal whose inside starts `s`, or -1. */
  function Scan(s: string, escaped: bool): (r: int)
    ensures -1 <= r < |s|
    ensures r >= 0 ==> s[r] == '"'
  {
    if s == "" then -1
    else if !escaped && s[0] == '"' then 0
    else
      var r := Scan(s[1..], !escaped && s[0] == '\\');
      if r < 0 then -1 else r + 1
  }

  lemma ScanInert(s: string)
    requires s != "" && Inert(s[0])
    ensures Scan(s, false) == if Scan(s[1..], false) < 0 then -1 else 1 + Scan(s[1..], false)
  {
  }

  /** Four characters of a long form. */
  lemma ScanFour(w: char, x: char, y: char, z: char, rest: string)
    requires Inert(w) && Inert(x) && Inert(y) && Inert(z)
    ensures Scan([w, x, y, z] + rest, false) == if Scan(rest, false) < 0 then -1 else 4 + Scan(rest, false)
  {
    var s2, s3, s4, s5 := [w, x, y, z] + rest, [x, y, z] + rest, [y, z] + rest, [z] + rest;
    assert s2[1..] == s3 && s3[1..] == s4 && s4[1..] == s5 && s5[1..] == rest;
    ScanInert(s2);
    ScanInert(s3);
    ScanInert(s4);
    ScanInert(s5);
  }

  lemma ScanWritten(f: Form, c: char, rest: string)
    requires Reads(f, c)
    ensures Scan(Written(f, c) + rest, false) == if Scan(rest, false) < 0 then -1 else |Written(f, c)| + Scan(rest, false)
  {
    var s := Written(f, c) + rest;
    match f
    case Plain =>
      assert s[1..] == rest;
    case Short(letter) =>
      assert s[1..][1..] == rest;
      assert s[1..][0] == letter;
      assert Scan(s[1..], true) == if Scan(rest, false) < 0 then -1 else 1 + Scan(rest, false);
    case Long(w, x, y, z) =>
      var s2 := [w, x, y, z] + rest;
      assert s[1..][1..] == s2;
      assert Scan(s[1..], true) == if Scan(s2, false) < 0 then -1 else 1 + Scan(s2, false);
      ScanFour(w, x, y, z, rest);
  }

  /** The scan stops at the end of the literal, whatever is in it and after it. */
  lemma {:induction false} ScanStops(v: string, more: string)
    ensures Scan(Escape(v) + ("\"" + more), false) == |Escape(v)|
  {
    var tail := "\"" + more;
    if v == "" {
      assert Escape(v) + tail == tail;
    } else {
      ScanStops(v[1..], more);
      FormReads(v[0]);
      ScanWritten(FormOf(v[0]), v[0], Escape(v[1..]) + tail);
      assert Escape(v) + tail == EscapeChar(v[0]) + (Escape(v[1..]) + tail);
    }
  }

  lemma ScanQuote(v: string, more: string)
    ensures Quote(v) + more == "\"" + (Escape(v) + ("\"" + more))
    ensures Scan((Quote(v) + more)[1..], false) == |Quote(v)| - 2
  {
    ScanStops(v, more);
    assert (Quote(v) + more)[1..] == Escape(v) + ("\"" + more);
  }

  lemma TakePrefix(a: string, b: string)
    ensures (a + b)[..|a|] == a
  {
  }

  /** No literal is the beginning of another. */
  lemma QuotesApart(v: string, more: string, w: string, more': string)
    requires Quote(v) + more == Quote(w) + more'
    ensures v == w
  {
    ScanQuote(v, more);
    ScanQuote(w, more');
    assert |Quote(v)| == |Quote(w)|;
    TakePrefix(Quote(v), more);
    TakePrefix(Quote(w), more');
    QuoteReads(v);
    QuoteReads(w);
  }
}
