/** Tool calls that a model wrote as text, in closed blocks: the first of the two forms
    the Cline reader accepts. */
module ToolMarkup {
  import opened Text
  import Seqs

  /** A recognised call. A call in the compact form keeps its argument text as it was
      written, every other call carries the object its arguments were read into. */
  datatype Call<V> = Named(name: string, arguments: map<string, V>) | Compact(name: string, text: string)

  /** The decoders the recognisers consult: the argument pairs that follow a name inside
      a closed block, whether a text is JSON, the value a text stands for (itself when
      it is not JSON), and the members of the object it stands for. */
  datatype Decoder<!V> = Decoder(
    pairs: string -> map<string, V>,
    valid: string -> bool,
    value: string -> V,
    members: string -> Option<map<string, V>>)

  /** The tags around a block. Everything below holds for any two non-empty tags. */
  datatype Markup = Markup(opening: string, closing: string)

  const ToolCallMarkup := Markup("<tool_call>", "</tool_call>")

  predicate Proper(m: Markup) { m.opening != "" && m.closing != "" }

  // ---- cutting a text at its closed blocks ----

  /** A text cut at its closed blocks: what stands before each block, and what stands
      between the tags of the block. */
  datatype Cuts = Tail(text: string) | Block(before: string, inner: string, rest: Cuts)

  function Source(m: Markup, cuts: Cuts): string {
    match cuts
    case Tail(text) => text
    case Block(before, inner, rest) => before + (m.opening + inner + m.closing + Source(m, rest))
  }

  /** No closing tag follows an opening tag. */
  ghost predicate Unclosed(m: Markup, s: string) {
    forall i, j :: At(s, i, m.opening) && i + |m.opening| <= j ==> !At(s, j, m.closing)
  }

  /** Does `part` first occur in `s + part` where `s` ends? */
  predicate FirstAtEnd(s: string, part: string) {
    forall i :: 0 <= i < |s| ==> !At(s + part, i, part)
  }

  /** Each block starts at the first opening tag there is and ends at the first closing
      tag that follows it; what is left has no block. */
  ghost predicate Segmentation(m: Markup, cuts: Cuts) {
    match cuts
    case Tail(text) => Unclosed(m, text)
    case Block(before, inner, rest) => FirstAtEnd(before, m.opening) && FirstAtEnd(inner, m.closing) && Segmentation(m, rest)
  }

  /** Where the two tags of the first block of a text are, if there is one. */
  datatype Place = Nowhere | Place(first: nat, stop: nat)

  ghost predicate IsFirstBlock(m: Markup, s: string, p: Place) {
    match p
    case Nowhere => Unclosed(m, s)
    case Place(first, stop) =>
      && At(s, first, m.opening) && (forall i :: 0 <= i < first ==> !At(s, i, m.opening))
      && first + |m.opening| <= stop && At(s, stop, m.closing)
      && (forall i :: first + |m.opening| <= i < stop ==> !At(s, i, m.closing))
  }

  function FirstBlock(m: Markup, s: string): (p: Place)
    ensures p.Place? ==> p.first + |m.opening| <= p.stop && p.stop + |m.closing| <= |s|
  {
    var first := Index(s, m.opening);
    if first < 0 then Nowhere
    else
      var stop := IndexFrom(s, m.closing, first + |m.opening|);
      if stop < 0 then Nowhere else Place(first, stop)
  }

  lemma FirstBlockFound(m: Markup, s: string)
    ensures IsFirstBlock(m, s, FirstBlock(m, s))
  {
  }

  lemma FirstBlockUnique(m: Markup, s: string, p: Place)
    requires IsFirstBlock(m, s, p)
    ensures FirstBlock(m, s) == p
  {
    FirstBlockFound(m, s);
    var found := FirstBlock(m, s);
    if found.Place? && p.Place? {
      assert found.first == p.first;
      assert found.stop == p.stop;
    }
  }

  lemma SliceOfSlice(s: string, a: nat, b: nat, i: nat, j: nat)
    requires a <= b <= |s| && i <= j <= b - a
    ensures s[a..b][i..j] == s[a + i..a + j]
  {
    var x := s[a..b][i..j];
    assert forall k :: 0 <= k < |x| ==> x[k] == s[a + i + k];
  }

  lemma OccurrenceFrom(s: string, part: string, from: nat, n: nat)
    requires from <= n <= |s| && At(s, n, part) && forall i :: from <= i < n ==> !At(s, i, part)
    ensures FirstAtEnd(s[from..n], part)
  {
    var t := s[from..n] + part;
    assert t == s[from..n + |part|];
    forall i | 0 <= i < n - from
      ensures !At(t, i, part)
    {
      assert !At(s, from + i, part);
      assert i + |part| <= |t|;
      SliceOfSlice(s, from, n + |part|, i, i + |part|);
    }
  }

  lemma Cut3(s: string, a: nat, b: nat, c: nat, d: nat)
    requires a <= b <= c <= d <= |s|
    ensures s[..a] + (s[a..b] + s[b..c] + s[c..d] + s[d..]) == s
  {
  }

  lemma BlockCut(m: Markup, s: string, p: Place)
    requires p.Place? && IsFirstBlock(m, s, p)
    ensures FirstAtEnd(s[..p.first], m.opening) && FirstAtEnd(s[p.first + |m.opening|..p.stop], m.closing)
    ensures s[..p.first] + (m.opening + s[p.first + |m.opening|..p.stop] + m.closing + s[p.stop + |m.closing|..]) == s
  {
    EdgesCut(m, s, p);
    Cut3(s, p.first, p.first + |m.opening|, p.stop, p.stop + |m.closing|);
  }

  lemma EdgesCut(m: Markup, s: string, p: Place)
    requires p.Place? && IsFirstBlock(m, s, p)
    ensures FirstAtEnd(s[..p.first], m.opening) && FirstAtEnd(s[p.first + |m.opening|..p.stop], m.closing)
  {
    OccurrenceFrom(s, m.opening, 0, p.first);
    assert s[0..p.first] == s[..p.first];
    OccurrenceFrom(s, m.closing, p.first + |m.opening|, p.stop);
  }

  /** Every text can be cut so. */
  lemma {:induction false} CutExists(m: Markup, s: string) returns (cuts: Cuts)
    requires Proper(m)
    ensures Segmentation(m, cuts) && Source(m, cuts) == s
    decreases |s|
  {
    var p := FirstBlock(m, s);
    FirstBlockFound(m, s);
    if p.Nowhere? {
      cuts := Tail(s);
    } else {
      BlockCut(m, s, p);
      var rest := CutExists(m, s[p.stop + |m.closing|..]);
      cuts := Block(s[..p.first], s[p.first + |m.opening|..p.stop], rest);
    }
  }

  /** Text before the end of a first occurrence does not matter to it. */
  lemma OccurrenceAfter(before: string, s: string, part: string, more: string, i: nat)
    requires i <= |s| && FirstAtEnd(s, part)
    ensures At(before + (s + part + more), |before| + i, part) <==> i == |s|
  {
    var all, t := before + (s + part + more), s + part;
    assert all[|before| + i..|before| + i + |part|] == t[i..i + |part|];
    assert i < |s| ==> !At(t, i, part);
    assert t[|s|..|s| + |part|] == part;
  }

  lemma FirstTag(before: string, tag: string, more: string)
    requires FirstAtEnd(before, tag)
    ensures forall i :: 0 <= i <= |before| ==> (At(before + (tag + more), i, tag) <==> i == |before|)
  {
    assert before + (tag + more) == "" + (before + tag + more);
    forall i | 0 <= i <= |before|
      ensures At(before + (tag + more), i, tag) <==> i == |before|
    {
      OccurrenceAfter("", before, tag, more, i);
    }
  }

  lemma LastTag(before: string, inner: string, tag: string, rest: string)
    requires FirstAtEnd(inner, tag)
    ensures forall j :: |before| <= j <= |before| + |inner| ==> (At(before + (inner + tag + rest), j, tag) <==> j == |before| + |inner|)
  {
    forall j | |before| <= j <= |before| + |inner|
      ensures At(before + (inner + tag + rest), j, tag) <==> j == |before| + |inner|
    {
      OccurrenceAfter(before, inner, tag, rest, j - |before|);
    }
  }

  /** What stands before and after decides where the first block of a text is. */
  lemma BlockFound(m: Markup, before: string, inner: string, rest: string)
    requires FirstAtEnd(before, m.opening) && FirstAtEnd(inner, m.closing)
    ensures IsFirstBlock(m, before + (m.opening + inner + m.closing + rest), Place(|before|, |before| + |m.opening| + |inner|))
  {
    var s := before + (m.opening + inner + m.closing + rest);
    FirstTag(before, m.opening, inner + m.closing + rest);
    assert s == before + (m.opening + (inner + m.closing + rest));
    LastTag(before + m.opening, inner, m.closing, rest);
    assert s == before + m.opening + (inner + m.closing + rest);
  }

  /** The first block of the text is the first block of its cut. */
  lemma CutAt(m: Markup, cuts: Cuts, p: Place)
    requires Segmentation(m, cuts) && IsFirstBlock(m, Source(m, cuts), p)
    ensures p.Nowhere? <==> cuts.Tail?
    ensures cuts.Block? ==> p == Place(|cuts.before|, |cuts.before| + |m.opening| + |cuts.inner|)
  {
    var s := Source(m, cuts);
    FirstBlockUnique(m, s, p);
    match cuts
    case Tail(text) => FirstBlockUnique(m, s, Nowhere);
    case Block(before, inner, rest) =>
      BlockFound(m, before, inner, Source(m, rest));
      FirstBlockUnique(m, s, Place(|before|, |before| + |m.opening| + |inner|));
  }

  lemma Parts(a: string, b: string, c: string, d: string, e: string, s: string)
    requires s == a + (b + c + d + e)
    ensures s[..|a|] == a && s[|a| + |b|..|a| + |b| + |c|] == c && s[|a| + |b| + |c| + |d|..] == e
  {
  }

  /** What the parts of a cut are, given where its first block is. */
  ghost predicate InPlace(m: Markup, s: string, p: Place, cuts: Cuts)
    requires p.Place?
  {
    && cuts.Block? && p.first + |m.opening| <= p.stop && p.stop + |m.closing| <= |s|
    && s[..p.first] == cuts.before && s[p.first + |m.opening|..p.stop] == cuts.inner
    && s[p.stop + |m.closing|..] == Source(m, cuts.rest)
  }

  lemma CutInPlace(m: Markup, cuts: Cuts, p: Place)
    requires Segmentation(m, cuts) && IsFirstBlock(m, Source(m, cuts), p) && p.Place?
    ensures InPlace(m, Source(m, cuts), p, cuts)
  {
    CutAt(m, cuts, p);
    Parts(cuts.before, m.opening, cuts.inner, m.closing, Source(m, cuts.rest), Source(m, cuts));
  }

  /** There is only one way to cut a text so. */
  lemma {:induction false} OneCut(m: Markup, x: Cuts, y: Cuts)
    requires Segmentation(m, x) && Segmentation(m, y) && Source(m, x) == Source(m, y)
    ensures x == y
    decreases x
  {
    var p := FirstBlock(m, Source(m, x));
    FirstBlockFound(m, Source(m, x));
    if p.Place? {
      CutInPlace(m, x, p);
      CutInPlace(m, y, p);
      OneCut(m, x.rest, y.rest);
    } else {
      CutAt(m, x, p);
      CutAt(m, y, p);
    }
  }

  // ---- recognising the blocks ----

  /** The white space that \s matches. */
  predicate IsBlank(c: char) { c == ' ' || c == '\t' || c == '\n' || c == '\U{C}' || c == '\r' }

  function Strip(s: string): (r: string)
    ensures |r| <= |s|
    decreases |s|
  {
    if s != [] && IsBlank(s[0]) then Strip(s[1..])
    else if s != [] && IsBlank(s[|s| - 1]) then Strip(s[..|s| - 1])
    else s
  }

  /** A block is a call when a non-empty name stands before a colon and at least one
      argument pair after it. */
  function Recognise<V>(inner: string, decode: Decoder<V>): Option<Call<V>> {
    var body := Strip(inner);
    var colon := Index(body, ":");
    if colon <= 0 then None
    else
      var name, arguments := Trim(body[..colon]), decode.pairs(body[colon + 1..]);
      if name == "" || arguments == map[] then None else Some(Named(name, arguments))
  }

  /** What is left of a text: everything but the blocks that are calls. */
  function Visible<V>(m: Markup, cuts: Cuts, recognise: string -> Option<Call<V>>): string {
    match cuts
    case Tail(text) => text
    case Block(before, inner, rest) =>
      before + ((if recognise(inner).Some? then "" else m.opening + inner + m.closing) + Visible(m, rest, recognise))
  }

  function Calls<V>(cuts: Cuts, recognise: string -> Option<Call<V>>): seq<Call<V>> {
    match cuts
    case Tail(_) => []
    case Block(_, inner, rest) =>
      (if recognise(inner).Some? then [recognise(inner).value] else []) + Calls(rest, recognise)
  }

  /** What closed-block recognition makes of a text. */
  ghost predicate ClosedReading<V>(m: Markup, text: string, recognise: string -> Option<Call<V>>, visible: string, calls: seq<Call<V>>) {
    exists cuts ::
      && Segmentation(m, cuts) && Source(m, cuts) == text
      && visible == Visible(m, cuts, recognise) && calls == Calls(cuts, recognise)
  }

  /** What reading the rest of a cut makes of what was read before. */
  ghost function ReadOn<V>(m: Markup, read: (string, seq<Call<V>>), left: Cuts, recognise: string -> Option<Call<V>>): (string, seq<Call<V>>)
    decreases left
  {
    match left
    case Tail(text) => (read.0 + text, read.1)
    case Block(before, inner, rest) => ReadOn(m, ReadBlock(m, read, before, inner, recognise(inner)), rest, recognise)
  }

  ghost function ReadBlock<V>(m: Markup, read: (string, seq<Call<V>>), before: string, inner: string, call: Option<Call<V>>): (string, seq<Call<V>>) {
    if call.Some? then (read.0 + before, read.1 + [call.value]) else (read.0 + before + (m.opening + inner + m.closing), read.1)
  }

  lemma Regrouped(a: string, b: string, c: string, d: string)
    ensures a + b + c + d == a + (b + (c + d))
  {
  }

  lemma {:induction false} ReadThrough<V>(m: Markup, read: (string, seq<Call<V>>), left: Cuts, recognise: string -> Option<Call<V>>)
    ensures ReadOn(m, read, left, recognise) == (read.0 + Visible(m, left, recognise), read.1 + Calls(left, recognise))
    decreases left
  {
    match left
    case Tail(text) =>
      assert read.1 + [] == read.1;
    case Block(before, inner, rest) =>
      var call := recognise(inner);
      ReadThrough(m, ReadBlock(m, read, before, inner, call), rest, recognise);
      var shown, found := if call.Some? then "" else m.opening + inner + m.closing, if call.Some? then [call.value] else [];
      Regrouped(read.0, before, shown, Visible(m, rest, recognise));
      Seqs.Assoc(read.1, found, Calls(rest, recognise));
      assert read.0 + before + "" == read.0 + before && read.1 + [] == read.1;
      assert ReadBlock(m, read, before, inner, call) == (read.0 + before + shown, read.1 + found);
  }

  method NextBlock(m: Markup, rest: string, ghost left: Cuts) returns (p: Place)
    requires Segmentation(m, left) && Source(m, left) == rest
    ensures p.Nowhere? <==> left.Tail?
    ensures p.Place? ==> InPlace(m, rest, p, left)
  {
    p := FirstBlock(m, rest);
    FirstBlockFound(m, rest);
    if p.Place? { CutInPlace(m, left, p); } else { CutAt(m, left, p); }
  }

  /** Removes the blocks that are calls and keeps everything else as it was. */
  method ParseClosed<V>(m: Markup, text: string, recognise: string -> Option<Call<V>>) returns (visible: string, calls: seq<Call<V>>)
    requires Proper(m)
    ensures ClosedReading(m, text, recognise, visible, calls)
  {
    ghost var cuts := CutExists(m, text);
    ghost var left := cuts;
    visible, calls := "", [];
    var rest := text;
    var p := NextBlock(m, rest, left);
    while p.Place?
      invariant Segmentation(m, left) && Source(m, left) == rest
      invariant p.Nowhere? <==> left.Tail?
      invariant p.Place? ==> InPlace(m, rest, p, left)
      invariant ReadOn(m, (visible, calls), left, recognise) == ReadOn(m, ("", []), cuts, recognise)
      decreases left
    {
      var inner := rest[p.first + |m.opening|..p.stop];
      var call := recognise(inner);
      visible := visible + rest[..p.first];
      if call.Some? {
        calls := calls + [call.value];
      } else {
        visible := visible + (m.opening + inner + m.closing);
      }
      left := left.rest;
      rest := rest[p.stop + |m.closing|..];
      p := NextBlock(m, rest, left);
    }
    visible := visible + rest;
    ReadThrough(m, ("", []), cuts, recognise);
  }

  /** Without a recognised call the text comes back unchanged. */
  lemma {:induction false} NothingRecognised<V>(m: Markup, cuts: Cuts, recognise: string -> Option<Call<V>>)
    requires Calls(cuts, recognise) == []
    ensures Visible(m, cuts, recognise) == Source(m, cuts)
  {
    if cuts.Block? {
      NothingRecognised(m, cuts.rest, recognise);
      Seqs.Assoc(m.opening + cuts.inner, m.closing, Source(m, cuts.rest));
    }
  }
}
