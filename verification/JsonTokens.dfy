/** Compact JSON as a sequence of tokens, and why searching its text for a key marker
    finds that key and nothing else. */
module JsonTokens {
  import opened Text
  import opened JsonText

  datatype Token = Punct(text: string) | Key(name: string) | Str(value: string) | Num(n: int)

  predicate Letter(c: char) { 'a' <= c <= 'z' || c == '_' }

  predicate Word(s: string) { s != "" && forall i :: 0 <= i < |s| ==> Letter(s[i]) }

  predicate PunctChar(c: char) { c == '{' || c == '}' || c == '[' || c == ']' || c == ',' }

  predicate Valid(t: Token) {
    match t
    case Punct(text) => forall i :: 0 <= i < |text| ==> PunctChar(text[i])
    case Key(name) => Word(name)
    case _ => true
  }

  predicate AllValid(ts: seq<Token>) { forall i :: 0 <= i < |ts| ==> Valid(ts[i]) }

  function Digits(n: nat): (r: string)
    ensures r != "" && forall i :: 0 <= i < |r| ==> '0' <= r[i] <= '9'
  {
    if n < 10 then [('0' as int + n) as char] else Digits(n / 10) + [('0' as int + n % 10) as char]
  }

  function Decimal(n: int): string { if n < 0 then "-" + Digits(-n) else Digits(n) }

  function Marker(k: string): string { "\"" + (k + "\":") }

  function Render(t: Token): string {
    match t
    case Punct(text) => text
    case Key(name) => Marker(name)
    case Str(value) => Quote(value)
    case Num(n) => Decimal(n)
  }

  function RenderAll(ts: seq<Token>): string {
    if ts == [] then "" else Render(ts[0]) + RenderAll(ts[1..])
  }

  /** What can follow a token: nothing that a key or its colon could go on with. */
  predicate Follows(rest: string) { rest == "" || (!Letter(rest[0]) && rest[0] != ':') }

  lemma {:induction false} RestFollows(ts: seq<Token>)
    requires AllValid(ts)
    ensures Follows(RenderAll(ts))
  {
    if ts != [] {
      RestFollows(ts[1..]);
      if ts[0].Num? {
        assert Digits(if ts[0].n < 0 then -ts[0].n else ts[0].n) != "";
      }
    }
  }

  /** A marker at a position, character by character. */
  ghost predicate Spelt(s: string, i: int, n: nat) {
    && 0 <= i && i + n + 2 < |s|
    && s[i] == '"' && s[i + n + 1] == '"' && s[i + n + 2] == ':'
    && forall p :: i < p <= i + n ==> Letter(s[p])
  }

  lemma MarkerSpelt(s: string, i: int, k: string)
    requires Word(k) && At(s, i, Marker(k))
    ensures Spelt(s, i, |k|)
  {
    var m := Marker(k);
    assert forall p :: i <= p < i + |m| ==> s[p] == s[i..i + |m|][p - i];
  }

  lemma {:induction false} InnerQuotes(v: string)
    ensures forall p :: 0 <= p < |Escape(v)| && Escape(v)[p] == '"' ==> p > 0 && Escape(v)[p - 1] == '\\'
  {
    if v != "" {
      InnerQuotes(v[1..]);
      FormReads(v[0]);
      var w := EscapeChar(v[0]);
      assert forall p :: 0 <= p < |w| && w[p] == '"' ==> p > 0 && w[p - 1] == '\\';
      assert Escape(v) == w + Escape(v[1..]);
    }
  }

  /** Nothing spelt like a marker starts inside a literal or at its quotes. */
  lemma NoneInLiteral(v: string, rest: string, i: nat, n: nat)
    requires i < |Quote(v)| && n > 0 && Follows(rest)
    ensures !Spelt(Quote(v) + rest, i, n)
  {
    var s, last := Quote(v) + rest, |Quote(v)| - 1;
    InnerQuotes(v);
    assert forall p :: 0 < p < last ==> s[p] == Escape(v)[p - 1];
    forall p | 0 < p < last && s[p] == '"'
      ensures p > 1 && s[p - 1] == '\\'
    {
      assert Escape(v)[p - 1] == '"';
    }
    assert s[last] == '"' && !Letter(s[last]);
    assert last + 1 < |s| ==> s[last + 1] == rest[0] && !Letter(s[last + 1]);
    assert i + n + 1 < last && s[i + n + 1] == '"' ==> !Letter(s[i + n]);
  }

  /** Nothing spelt like a marker starts inside a key. */
  lemma NoneInKey(name: string, rest: string, i: nat, n: nat)
    requires Word(name) && 0 < i < |Marker(name)| && n > 0
    ensures !Spelt(Marker(name) + rest, i, n)
  {
    var s := Marker(name) + rest;
    assert forall p :: 0 < p <= |name| ==> s[p] == name[p - 1];
    assert s[|name| + 1] == '"' && s[|name| + 2] == ':';
  }

  lemma OtherKey(name: string, rest: string, k: string)
    requires Word(name) && Word(k) && At(Marker(name) + rest, 0, Marker(k))
    ensures name == k
  {
    var s := Marker(name) + rest;
    MarkerSpelt(s, 0, k);
    assert forall p :: 0 < p <= |name| ==> s[p] == name[p - 1];
    assert s[|name| + 1] == '"';
    assert |name| == |k|;
    assert s[..|Marker(k)|] == Marker(k);
    assert forall p :: 0 <= p < |k| ==> s[p + 1] == Marker(k)[p + 1] == k[p];
  }

  lemma NoneInToken(t: Token, rest: string, k: string, i: nat)
    requires Valid(t) && Word(k) && Follows(rest) && i < |Render(t)| && (i > 0 || t != Key(k))
    ensures !At(Render(t) + rest, i, Marker(k))
  {
    var s := Render(t) + rest;
    assert s[i] == Render(t)[i];
    if At(s, i, Marker(k)) {
      MarkerSpelt(s, i, k);
    }
    match t
    case Punct(text) => assert PunctChar(text[i]);
    case Num(n) =>
    case Str(v) => NoneInLiteral(v, rest, i, |k|);
    case Key(name) =>
      if i > 0 {
        NoneInKey(name, rest, i, |k|);
      } else if At(s, 0, Marker(k)) {
        OtherKey(name, rest, k);
      }
  }

  // ---- whole texts ----

  /** Where token `j` starts. */
  function Offset(ts: seq<Token>, j: nat): nat
    requires j <= |ts|
  {
    if j == 0 then 0 else |Render(ts[0])| + Offset(ts[1..], j - 1)
  }

  lemma DropBoth(a: string, b: string, n: nat)
    requires n <= |b|
    ensures (a + b)[|a| + n..] == b[n..]
  {
  }

  lemma {:induction false} TextFrom(ts: seq<Token>, j: nat)
    requires j <= |ts|
    ensures Offset(ts, j) <= |RenderAll(ts)| && RenderAll(ts)[Offset(ts, j)..] == RenderAll(ts[j..])
  {
    if j > 0 {
      TextFrom(ts[1..], j - 1);
      assert ts[1..][j - 1..] == ts[j..];
      DropBoth(Render(ts[0]), RenderAll(ts[1..]), Offset(ts[1..], j - 1));
    } else {
      assert ts[0..] == ts;
    }
  }

  lemma AtShift(a: string, b: string, i: nat, part: string)
    requires |a| <= i
    ensures At(a + b, i, part) <==> At(b, i - |a|, part)
  {
    assert i + |part| <= |a + b| ==> (a + b)[i..i + |part|] == b[i - |a|..i - |a| + |part|];
  }

  lemma HereOrLater(t: Token, rest: string, k: string, i: nat)
    requires Valid(t) && Word(k) && Follows(rest) && At(Render(t) + rest, i, Marker(k))
    ensures (i == 0 && t == Key(k)) || (i >= |Render(t)| && At(rest, i - |Render(t)|, Marker(k)))
  {
    if i >= |Render(t)| {
      AtShift(Render(t), rest, i, Marker(k));
    } else if i > 0 || t != Key(k) {
      NoneInToken(t, rest, k, i);
    }
  }

  lemma RestValid(ts: seq<Token>)
    requires AllValid(ts) && ts != []
    ensures AllValid(ts[1..]) && Valid(ts[0])
  {
    assert forall i :: 0 <= i < |ts[1..]| ==> ts[1..][i] == ts[i + 1];
  }

  lemma FirstOrRest(ts: seq<Token>, k: string, i: nat)
    requires AllValid(ts) && Word(k) && At(RenderAll(ts), i, Marker(k)) && ts != []
    ensures (i == 0 && ts[0] == Key(k)) || (i >= |Render(ts[0])| && At(RenderAll(ts[1..]), i - |Render(ts[0])|, Marker(k)))
  {
    RestValid(ts);
    RestFollows(ts[1..]);
    HereOrLater(ts[0], RenderAll(ts[1..]), k, i);
  }

  /** The marker of a key occurs only where that key does. */
  lemma {:induction false} OnlyAtKeys(ts: seq<Token>, k: string, i: nat) returns (j: nat)
    requires AllValid(ts) && Word(k) && At(RenderAll(ts), i, Marker(k))
    ensures j < |ts| && ts[j] == Key(k) && i == Offset(ts, j)
  {
    FirstOrRest(ts, k, i);
    RestValid(ts);
    if i == 0 && ts[0] == Key(k) {
      return 0;
    }
    j := OnlyAtKeys(ts[1..], k, i - |Render(ts[0])|);
    j := j + 1;
  }

  lemma {:induction false} OffsetGrows(ts: seq<Token>, i: nat, j: nat)
    requires i < j <= |ts| && AllValid(ts) && ts[i].Key?
    ensures Offset(ts, i) < Offset(ts, j)
  {
    if i == 0 {
      assert Offset(ts, 0) == 0;
    } else {
      OffsetGrows(ts[1..], i - 1, j - 1);
    }
  }

  /** None of the first `n` tokens is this key. */
  predicate Keyless(ts: seq<Token>, k: string, n: nat)
    requires n <= |ts|
  {
    forall i :: 0 <= i < n ==> ts[i] != Key(k)
  }

  lemma KeyIsAt(ts: seq<Token>, k: string, j: nat)
    requires j < |ts| && ts[j] == Key(k)
    ensures At(RenderAll(ts), Offset(ts, j), Marker(k))
  {
    var s, o := RenderAll(ts), Offset(ts, j);
    TextFrom(ts, j);
    var m, after := Marker(k), RenderAll(ts[j..][1..]);
    assert s[o..] == m + after;
    assert s[o..][..|m|] == s[o..o + |m|];
  }

  /** Searching for the marker of a key finds the first such key. */
  lemma MarkerFound(ts: seq<Token>, k: string, j: nat)
    requires AllValid(ts) && Word(k) && j < |ts| && ts[j] == Key(k) && Keyless(ts, k, j)
    ensures Index(RenderAll(ts), Marker(k)) == Offset(ts, j)
  {
    KeyIsAt(ts, k, j);
    var at := Index(RenderAll(ts), Marker(k));
    var j' := OnlyAtKeys(ts, k, at);
    if j < j' {
      OffsetGrows(ts, j, j');
    }
  }

  // ---- taking a literal out of a text ----

  predicate IsJsonSpace(c: char) { c == ' ' || c == '\t' || c == '\n' || c == '\r' }

  /** The literal that a text starts with, after white space. */
  function ReadLiteral(s: string): Option<string> {
    if s == "" then None
    else if IsJsonSpace(s[0]) then ReadLiteral(s[1..])
    else if s[0] != '"' then None
    else
      var end := Scan(s[1..], false);
      if end < 0 then None else Some(s[..end + 2])
  }

  /** The literal that follows the first occurrence of a marker. */
  function LiteralAfter(s: string, marker: string): Option<string> {
    var at := Index(s, marker);
    if at < 0 then None else ReadLiteral(s[at + |marker|..])
  }

  method Extract(data: string, marker: string) returns (r: Option<string>)
    ensures r == LiteralAfter(data, marker)
  {
    var idx := Index(data, marker);
    if idx < 0 {
      return None;
    }
    r := ExtractFrom(data, idx + |marker|);
  }

  method ExtractFrom(data: string, from: nat) returns (r: Option<string>)
    requires from <= |data|
    ensures r == ReadLiteral(data[from..])
  {
    var idx := from;
    while idx < |data| && IsJsonSpace(data[idx])
      invariant from <= idx <= |data| && ReadLiteral(data[idx..]) == ReadLiteral(data[from..])
    {
      assert data[idx..][1..] == data[idx + 1..];
      idx := idx + 1;
    }
    if idx >= |data| || data[idx] != '"' {
      return None;
    }
    var end := ClosingQuote(data, idx + 1);
    assert data[idx..][1..] == data[idx + 1..];
    if end >= 0 {
      assert data[idx..][..end + 1 - idx] == data[idx..end + 1];
      return Some(data[idx..end + 1]);
    }
    r := None;
  }

  method ClosingQuote(data: string, from: nat) returns (end: int)
    requires from <= |data|
    ensures end < |data| && if Scan(data[from..], false) < 0 then end == -1 else end == from + Scan(data[from..], false)
  {
    var idx, escaped := from, false;
    ghost var expected := Scan(data[from..], false);
    while idx < |data|
      invariant from <= idx <= |data|
      invariant if Scan(data[idx..], escaped) < 0 then expected < 0 else expected == idx - from + Scan(data[idx..], escaped)
    {
      assert data[idx..][1..] == data[idx + 1..];
      if !escaped && data[idx] == '"' {
        return idx;
      }
      escaped := !escaped && data[idx] == '\\';
      idx := idx + 1;
    }
    end := -1;
  }

  lemma LiteralHere(v: string, more: string)
    ensures ReadLiteral(Quote(v) + more) == Some(Quote(v))
  {
    ScanQuote(v, more);
    TakePrefix(Quote(v), more);
  }

  lemma LiteralFound(s: string, marker: string, at: nat, v: string, more: string)
    requires Index(s, marker) == at && at + |marker| <= |s| && s[at + |marker|..] == Quote(v) + more
    ensures LiteralAfter(s, marker) == Some(Quote(v))
  {
    LiteralHere(v, more);
  }

  /** The literal after the marker of a key is the value of the first such key. */
  lemma ValueExtracted(ts: seq<Token>, k: string, j: nat, v: string)
    requires AllValid(ts) && Word(k) && j + 1 < |ts| && ts[j] == Key(k) && Keyless(ts, k, j) && ts[j + 1] == Str(v)
    ensures LiteralAfter(RenderAll(ts), Marker(k)) == Some(Quote(v))
  {
    MarkerFound(ts, k, j);
    ValueFollows(ts, k, j, v);
    LiteralFound(RenderAll(ts), Marker(k), Offset(ts, j), v, RenderAll(ts[j + 2..]));
  }

  lemma ValueFollows(ts: seq<Token>, k: string, j: nat, v: string)
    requires j + 1 < |ts| && ts[j] == Key(k) && ts[j + 1] == Str(v)
    ensures Offset(ts, j) + |Marker(k)| <= |RenderAll(ts)|
    ensures RenderAll(ts)[Offset(ts, j) + |Marker(k)|..] == Quote(v) + RenderAll(ts[j + 2..])
  {
    TextFrom(ts, j);
    PairText(ts, j, k, v);
    DropPrefix(RenderAll(ts), Offset(ts, j), Marker(k), Quote(v) + RenderAll(ts[j + 2..]));
  }

  lemma PairText(ts: seq<Token>, j: nat, k: string, v: string)
    requires j + 1 < |ts| && ts[j] == Key(k) && ts[j + 1] == Str(v)
    ensures RenderAll(ts[j..]) == Marker(k) + (Quote(v) + RenderAll(ts[j + 2..]))
  {
    assert ts[j..][1..] == ts[j + 1..] && ts[j + 1..][1..] == ts[j + 2..];
  }

  lemma DropPrefix(s: string, o: nat, m: string, rest: string)
    requires o <= |s| && s[o..] == m + rest
    ensures o + |m| <= |s| && s[o + |m|..] == rest
  {
    assert s[o..][|m|..] == s[o + |m|..];
  }

  // ---- testing for a value ----

  /** Text of a key with a given value. */
  function Pair(k: string, w: string): string { Marker(k) + Quote(w) }

  lemma PairSplits(s: string, i: nat, k: string, w: string)
    requires i <= |s|
    ensures At(s, i, Pair(k, w)) <==> At(s, i, Marker(k)) && i + |Marker(k)| <= |s| && Quote(w) <= s[i + |Marker(k)|..]
  {
    var m, q := Marker(k), Quote(w);
    if i + |m| + |q| <= |s| {
      assert s[i..i + |m| + |q|] == s[i..i + |m|] + s[i + |m|..i + |m| + |q|];
      assert s[i + |m|..][..|q|] == s[i + |m|..i + |m| + |q|];
      assert s[i..i + |m| + |q|][..|m|] == s[i..i + |m|] && (m + q)[..|m|] == m && (m + q)[|m|..] == q;
      assert s[i..i + |m| + |q|][|m|..] == s[i + |m|..i + |m| + |q|];
    }
  }

  lemma PairFound(ts: seq<Token>, k: string, j: nat, w: string)
    requires Word(k) && j + 1 < |ts| && ts[j] == Key(k) && ts[j + 1] == Str(w)
    ensures Contains(RenderAll(ts), Pair(k, w))
  {
    KeyIsAt(ts, k, j);
    ValueFollows(ts, k, j, w);
    PairSplits(RenderAll(ts), Offset(ts, j), k, w);
  }

  /** Every value of this key is a string other than `w`. */
  predicate NeverValued(ts: seq<Token>, k: string, w: string) {
    forall j :: 0 <= j < |ts| && ts[j] == Key(k) ==> j + 1 < |ts| && ts[j + 1].Str? && ts[j + 1].value != w
  }

  lemma PrefixIsValue(v: string, rest: string, w: string)
    requires Quote(w) <= Quote(v) + rest
    ensures v == w
  {
    var more := (Quote(v) + rest)[|Quote(w)|..];
    assert Quote(v) + rest == Quote(w) + more;
    QuotesApart(v, rest, w, more);
  }

  lemma PairAbsent(ts: seq<Token>, k: string, w: string)
    requires AllValid(ts) && Word(k) && NeverValued(ts, k, w)
    ensures !Contains(RenderAll(ts), Pair(k, w))
  {
    var s := RenderAll(ts);
    if i :| 0 <= i <= |s| && At(s, i, Pair(k, w)) {
      PairSplits(s, i, k, w);
      var j := OnlyAtKeys(ts, k, i);
      var v := ts[j + 1].value;
      ValueFollows(ts, k, j, v);
      PrefixIsValue(v, RenderAll(ts[j + 2..]), w);
    }
  }
}
