/** Tool calls that a model writes as text are read as they were meant, in each of the
    forms they can be written in. */
module WrittenCalls {
  import opened Text
  import opened ToolMarkup
  import opened RepeatedTags
  import CR = ClineReader
  import Seqs

  // ---- text that holds no tag ----

  /** The first character of the tag does not come again in it. */
  predicate Lone(tag: string) { tag != "" && forall i :: 0 < i < |tag| ==> tag[i] != tag[0] }

  lemma AtChar(s: string, i: int, part: string, k: nat)
    requires At(s, i, part) && k < |part|
    ensures s[i + k] == part[k]
  {
    assert s[i..i + |part|][k] == part[k];
  }

  lemma AtBoth(s: string, tag: string, i: nat)
    requires At(s + tag, i, tag) && i < |s| < i + |tag|
    ensures tag[|s| - i] == tag[0]
  {
    AtChar(s + tag, i, tag, |s| - i);
    assert (s + tag)[|s|] == tag[0];
  }

  lemma AtInside(s: string, tag: string, i: nat)
    requires i + |tag| <= |s|
    ensures At(s + tag, i, tag) <==> At(s, i, tag)
  {
    assert (s + tag)[i..i + |tag|] == s[i..i + |tag|];
  }

  lemma NotAtEnd(s: string, tag: string, i: nat)
    requires Lone(tag) && Absent(s, tag) && i < |s|
    ensures !At(s + tag, i, tag)
  {
    if i + |tag| <= |s| {
      AtInside(s, tag, i);
    } else if At(s + tag, i, tag) {
      AtBoth(s, tag, i);
    }
  }

  /** Text without the tag does not begin one that the tag behind it completes. */
  lemma AbsentEnds(s: string, tag: string)
    requires Lone(tag) && Absent(s, tag)
    ensures FirstAtEnd(s, tag)
  {
    forall i | 0 <= i < |s|
      ensures !At(s + tag, i, tag)
    {
      NotAtEnd(s, tag, i);
    }
  }

  /** Two tags that begin with the same character and go on differently. */
  predicate TagsApart(m: Markup) {
    Lone(m.opening) && Lone(m.closing) && |m.opening| > 1 && |m.closing| > 1 && m.opening[0] == m.closing[0] && m.opening[1] != m.closing[1]
  }

  lemma OurTagsApart()
    ensures TagsApart(ToolCallMarkup)
  {
  }

  /** An opening tag between texts without a closing tag makes none. */
  lemma NoClosingAcross(m: Markup, a: string, b: string)
    requires TagsApart(m) && Absent(a, m.closing) && Absent(b, m.closing)
    ensures Absent(a + m.opening + b, m.closing)
  {
    var s := a + m.opening + b;
    forall i | 0 <= i
      ensures !At(s, i, m.closing)
    {
      if At(s, i, m.closing) {
        NotAcross(m, a, b, i);
      }
    }
  }

  lemma HitsOpening(a: string, opening: string, b: string, closing: string, i: nat)
    requires At(a + opening + b, i, closing) && closing != "" && |a| <= i < |a| + |opening|
    ensures opening[i - |a|] == closing[0]
    ensures i == |a| && |opening| > 1 && |closing| > 1 ==> opening[1] == closing[1]
  {
    var s := a + opening + b;
    assert forall k :: 0 <= k < |opening| ==> s[|a| + k] == opening[k];
    assert s[|a| + (i - |a|)] == opening[i - |a|];
    AtChar(s, i, closing, 0);
    if |closing| > 1 { AtChar(s, i, closing, 1); }
  }

  lemma RunsIntoOpening(a: string, opening: string, b: string, closing: string, i: nat)
    requires At(a + opening + b, i, closing) && opening != "" && i < |a| < i + |closing|
    ensures closing[|a| - i] == opening[0]
  {
    AtChar(a + opening + b, i, closing, |a| - i);
  }

  lemma NotAcross(m: Markup, a: string, b: string, i: nat)
    requires TagsApart(m) && At(a + m.opening + b, i, m.closing)
    ensures At(a, i, m.closing) || At(b, i - |a| - |m.opening|, m.closing)
  {
    if i + |m.closing| <= |a| {
      AtFront(a, m.opening + b, i, m.closing);
      assert a + m.opening + b == a + (m.opening + b);
    } else if i < |a| {
      RunsIntoOpening(a, m.opening, b, m.closing, i);
    } else if i < |a| + |m.opening| {
      HitsOpening(a, m.opening, b, m.closing, i);
    } else {
      AtBehind(a + m.opening, b, i, m.closing);
    }
  }

  lemma AtFront(a: string, b: string, i: nat, part: string)
    requires i + |part| <= |a|
    ensures At(a + b, i, part) <==> At(a, i, part)
  {
    assert (a + b)[i..i + |part|] == a[i..i + |part|];
  }

  lemma AtBehind(a: string, b: string, i: nat, part: string)
    requires |a| <= i
    ensures At(a + b, i, part) <==> At(b, i - |a|, part)
  {
    if i + |part| <= |a| + |b| {
      assert (a + b)[i..i + |part|] == b[i - |a|..i - |a| + |part|];
    }
  }

  lemma {:induction false} NoClosingGlued(m: Markup, segments: seq<string>)
    requires TagsApart(m) && segments != [] && forall i :: 0 <= i < |segments| ==> Absent(segments[i], m.closing)
    ensures Absent(Glued(segments, m.opening), m.closing)
  {
    if |segments| > 1 {
      NoClosingGlued(m, segments[1..]);
      NoClosingAcross(m, segments[0], Glued(segments[1..], m.opening));
    }
  }

  lemma NothingClosed(m: Markup, s: string)
    requires Absent(s, m.closing)
    ensures Unclosed(m, s)
  {
  }

  // ---- the repeated form ----

  predicate IsTrimmed(s: string) { s != "" && !IsSpace(s[0]) && !IsSpace(s[|s| - 1]) }

  /** A segment that holds neither tag. */
  ghost predicate Free(s: string) { Absent(s, ToolCallMarkup.opening) && Absent(s, ToolCallMarkup.closing) }

  /** One segment after the name: an entry, or the object that holds several. */
  datatype Argument = Entry(key: string, value: string) | Object(word: string, text: string)

  function KeyOf(a: Argument): string { if a.Entry? then a.key else a.word }

  function TextOf(a: Argument): string { if a.Entry? then a.value else a.text }

  function Segment(a: Argument): string { KeyOf(a) + (":" + (" " + TextOf(a))) }

  /** Keys hold no colon, and only the two words for an object name one. */
  ghost predicate Writable(name: string, a: Argument) {
    && IsTrimmed(KeyOf(a)) && IsTrimmed(TextOf(a)) && ':' !in KeyOf(a) && Free(Segment(a))
    && !PassedOver(name, KeyOf(a)) && (IsObjectWord(KeyOf(a)) <==> a.Object?)
  }

  /** What the arguments are meant to be. */
  function Meant<V>(args: seq<Argument>, d: Decoder<V>): map<string, V> {
    if args == [] then map[]
    else
      Add(args[|args| - 1], Meant(args[..|args| - 1], d), d)
  }

  function Add<V>(a: Argument, sofar: map<string, V>, d: Decoder<V>): map<string, V> {
    match a
    case Entry(key, value) => sofar[key := d.value(value)]
    case Object(_, text) => if d.members(text).Some? then sofar + d.members(text).value else sofar
  }

  /** Entries with different keys map each key to the value written for it. */
  lemma {:induction false} EntriesMeant<V>(args: seq<Argument>, d: Decoder<V>, i: nat)
    requires i < |args| && (forall j :: 0 <= j < |args| ==> args[j].Entry?)
    requires forall j, k :: 0 <= j < k < |args| ==> args[j].key != args[k].key
    ensures args[i].key in Meant(args, d) && Meant(args, d)[args[i].key] == d.value(args[i].value)
  {
    var n := |args| - 1;
    if i < n {
      EntriesMeant(args[..n], d, i);
      assert args[..n][i] == args[i];
    }
  }

  lemma {:induction false} OnlyEntriesMeant<V>(args: seq<Argument>, d: Decoder<V>, key: string)
    requires (forall j :: 0 <= j < |args| ==> args[j].Entry?) && key in Meant(args, d)
    ensures exists j :: 0 <= j < |args| && args[j].key == key
  {
    var n := |args| - 1;
    if args[n].key != key {
      OnlyEntriesMeant(args[..n], d, key);
      var j :| 0 <= j < n && args[..n][j].key == key;
      assert args[j].key == key;
    }
  }

  function Segments(name: string, args: seq<Argument>): (r: seq<string>)
    ensures |r| == |args| + 1
  {
    [name] + seq(|args|, i requires 0 <= i < |args| => Segment(args[i]))
  }

  /** A call in the repeated form. */
  function Repeated(name: string, args: seq<Argument>): string {
    ToolCallMarkup.opening + Glued(Segments(name, args), ToolCallMarkup.opening)
  }

  lemma FirstOfChar(k: string, c: char, rest: string)
    requires c !in k
    ensures Index(k + ([c] + rest), [c]) == |k|
  {
    var s := k + ([c] + rest);
    assert At(s, |k|, [c]);
    forall i | 0 <= i < |k|
      ensures !At(s, i, [c])
    {
      if At(s, i, [c]) { AtChar(s, i, [c], 0); }
    }
  }

  lemma Parts(k: string, c: char, rest: string)
    ensures var s := k + ([c] + rest); s[..|k|] == k && s[|k| + 1..] == rest
  {
  }

  lemma SpaceTrimmed(v: string)
    requires IsTrimmed(v)
    ensures Trim(" " + v) == v
  {
    assert (" " + v)[1..] == v;
    assert TrimLeft(" " + v) == v;
  }

  lemma PairParsed(k: string, v: string)
    requires IsTrimmed(k) && IsTrimmed(v) && ':' !in k
    ensures KeyValue(k + (":" + (" " + v))) == Some((k, v))
  {
    FirstOfChar(k, ':', " " + v);
    Parts(k, ':', " " + v);
    NothingToTrim(k);
    SpaceTrimmed(v);
  }

  lemma PairAdded<V>(name: string, a: Argument, sofar: map<string, V>, d: Decoder<V>, ignored: bool, members: bool)
    requires KeyOf(a) != "" && TextOf(a) != "" && ignored == PassedOver(name, KeyOf(a)) && members == IsObjectWord(KeyOf(a))
    requires !ignored && members == a.Object?
    ensures AddPair(name, KeyOf(a), TextOf(a), sofar, d) == Add(a, sofar, d)
  {
  }

  lemma ArgumentRead<V>(name: string, a: Argument, sofar: map<string, V>, d: Decoder<V>)
    requires Writable(name, a)
    ensures AddArgument(name, Segment(a), sofar, d) == Add(a, sofar, d)
  {
    PairParsed(KeyOf(a), TextOf(a));
    PairAdded(name, a, sofar, d, PassedOver(name, KeyOf(a)), IsObjectWord(KeyOf(a)));
  }

  lemma SegmentIsNoName(name: string, a: Argument)
    requires Writable(name, a)
    ensures !IsName(Segment(a)) && IsTrimmed(Segment(a))
  {
    MarkedIsNoName(KeyOf(a), ':', " " + TextOf(a));
    assert (" " + TextOf(a))[|TextOf(a)|] == TextOf(a)[|TextOf(a)| - 1];
    Ends(KeyOf(a), ':', " " + TextOf(a));
  }

  lemma MarkedIsNoName(k: string, c: char, rest: string)
    requires !NamePart(c)
    ensures !IsName(k + ([c] + rest))
  {
    assert (k + ([c] + rest))[|k|] == c;
  }

  lemma Ends(k: string, c: char, rest: string)
    requires k != "" && !IsSpace(k[0]) && rest != "" && !IsSpace(rest[|rest| - 1])
    ensures IsTrimmed(k + ([c] + rest))
  {
    var s := k + ([c] + rest);
    assert s[0] == k[0] && s[|s| - 1] == rest[|rest| - 1];
  }

  lemma NameTrimmed(name: string)
    requires IsName(name)
    ensures Trim(name) == name && IsTrimmed(name)
  {
    assert NamePart(name[|name| - 1]) && forall c: char :: NamePart(c) ==> !IsSpace(c);
    NothingToTrim(name);
  }

  lemma NameFree(name: string)
    requires IsName(name)
    ensures Free(name)
  {
    forall i | 0 <= i
      ensures !At(name, i, ToolCallMarkup.opening) && !At(name, i, ToolCallMarkup.closing)
    {
      if At(name, i, ToolCallMarkup.opening) { AtChar(name, i, ToolCallMarkup.opening, 0); }
      if At(name, i, ToolCallMarkup.closing) { AtChar(name, i, ToolCallMarkup.closing, 0); }
      assert !NamePart('<');
    }
  }

  ghost predicate AllWritable(name: string, args: seq<Argument>) { forall i :: 0 <= i < |args| ==> Writable(name, args[i]) }

  lemma SegmentAt(name: string, args: seq<Argument>, i: nat)
    requires IsName(name) && AllWritable(name, args) && i <= |args|
    ensures Trim(Segments(name, args)[i]) == Segments(name, args)[i] && (i > 0 ==> !IsName(Segments(name, args)[i]))
  {
    if i == 0 {
      NameTrimmed(name);
    } else {
      assert Writable(name, args[i - 1]);
      assert Segments(name, args)[i] == Segment(args[i - 1]);
      SegmentIsNoName(name, args[i - 1]);
      NothingToTrim(Segment(args[i - 1]));
    }
  }

  lemma SegmentsRead(name: string, args: seq<Argument>)
    requires IsName(name) && AllWritable(name, args)
    ensures Trimmed(Segments(name, args)) == Segments(name, args)
    ensures forall i :: 1 <= i <= |args| ==> !IsName(Segments(name, args)[i])
  {
    forall i | 0 <= i <= |args|
      ensures Trim(Segments(name, args)[i]) == Segments(name, args)[i] && (i > 0 ==> !IsName(Segments(name, args)[i]))
    {
      SegmentAt(name, args, i);
    }
  }

  lemma SegmentAdds<V>(name: string, args: seq<Argument>, k: nat, sofar: map<string, V>, d: Decoder<V>)
    requires k < |args| && AllWritable(name, args)
    ensures SegmentReader(d).argument(name, Segments(name, args)[k + 1], sofar) == Add(args[k], sofar, d)
  {
    assert Writable(name, args[k]) && Segments(name, args)[k + 1] == Segment(args[k]);
    ArgumentRead(name, args[k], sofar, d);
  }

  lemma MeantMore<V>(args: seq<Argument>, k: nat, d: Decoder<V>)
    requires k < |args|
    ensures Meant(args[..k + 1], d) == Add(args[k], Meant(args[..k], d), d)
  {
    assert args[..k + 1][..k] == args[..k];
  }

  lemma {:induction false} GatheredFold<V>(parts: seq<string>, name: string, args: seq<Argument>, k: nat, r: Reader<V>, d: Decoder<V>)
    requires k <= |args| && |parts| == |args| + 1
    requires forall j, sofar :: 0 <= j < |args| ==> r.argument(name, parts[j + 1], sofar) == Add(args[j], sofar, d)
    ensures Gathered(parts, name, 1, k + 1, r) == Meant(args[..k], d)
  {
    if k > 0 {
      GatheredFold(parts, name, args, k - 1, r, d);
      MeantMore(args, k - 1, d);
    }
  }

  /** Gathering the segments gives what was meant. */
  lemma GatheredMeant<V>(name: string, args: seq<Argument>, d: Decoder<V>)
    requires AllWritable(name, args)
    ensures Gathered(Segments(name, args), name, 1, |args| + 1, SegmentReader(d)) == Meant(args, d)
  {
    forall k: nat, sofar: map<string, V> | k < |args|
      ensures SegmentReader(d).argument(name, Segments(name, args)[k + 1], sofar) == Add(args[k], sofar, d)
    {
      SegmentAdds(name, args, k, sofar, d);
    }
    GatheredFold(Segments(name, args), name, args, |args|, SegmentReader(d), d);
    WholeList(args);
  }

  /** Only a name makes a call, and there is one. */
  lemma {:induction false} OnlyFirst<V>(parts: seq<string>, n: nat, r: Reader<V>)
    requires 1 <= n <= |parts| && r.isName(parts[0]) && forall i :: 1 <= i < |parts| ==> !r.isName(parts[i])
    ensures CallsIn(parts, n, r) == CallAt(parts, 0, r)
  {
    if n == 1 {
      assert CallsIn(parts, 0, r) == [] && [] + CallAt(parts, 0, r) == CallAt(parts, 0, r);
    } else {
      OnlyFirst(parts, n - 1, r);
      assert NameIn(parts, 0, n - 1, r);
      assert CallAt(parts, 0, r) + [] == CallAt(parts, 0, r);
    }
  }

  lemma FirstCall<V>(parts: seq<string>, r: Reader<V>)
    requires parts != [] && r.isName(parts[0]) && forall i :: 1 <= i < |parts| ==> !r.isName(parts[i])
    ensures var arguments := Gathered(parts, parts[0], 1, |parts|, r);
      CallAt(parts, 0, r) == if arguments == map[] then [] else [Named(parts[0], arguments)]
  {
    RunEndIs(parts, 1, |parts|, r);
  }

  lemma CallsAre<V>(parts: seq<string>, arguments: map<string, V>, r: Reader<V>)
    requires parts != [] && r.isName(parts[0]) && forall i :: 1 <= i < |parts| ==> !r.isName(parts[i])
    requires arguments == Gathered(parts, parts[0], 1, |parts|, r) && arguments != map[]
    ensures CallsIn(parts, |parts|, r) == [Named(parts[0], arguments)]
  {
    OnlyFirst(parts, |parts|, r);
    FirstCall(parts, r);
  }

  lemma NamesOnly<V>(parts: seq<string>, d: Decoder<V>)
    requires parts != [] && IsName(parts[0]) && forall i :: 1 <= i < |parts| ==> !IsName(parts[i])
    ensures SegmentReader(d).isName(parts[0]) && forall i :: 1 <= i < |parts| ==> !SegmentReader(d).isName(parts[i])
  {
  }

  lemma OneCall<V>(name: string, args: seq<Argument>, d: Decoder<V>)
    requires IsName(name) && AllWritable(name, args) && Meant(args, d) != map[]
    ensures CallsIn(Segments(name, args), |args| + 1, SegmentReader(d)) == [Named(name, Meant(args, d))]
  {
    SegmentsRead(name, args);
    NamesOnly(Segments(name, args), d);
    GatheredMeant(name, args, d);
    CallsAre(Segments(name, args), Meant(args, d), SegmentReader(d));
  }

  lemma RepeatedSplit(name: string, args: seq<Argument>)
    requires IsName(name) && AllWritable(name, args)
    ensures SplitInto(Glued(Segments(name, args), ToolCallMarkup.opening), ToolCallMarkup.opening, Segments(name, args))
    ensures Absent(Glued(Segments(name, args), ToolCallMarkup.opening), ToolCallMarkup.closing)
  {
    var parts := Segments(name, args);
    OurTagsApart();
    forall i | 0 <= i < |parts|
      ensures Free(parts[i]) && FirstAtEnd(parts[i], ToolCallMarkup.opening)
    {
      if i == 0 { NameFree(name); } else { assert Writable(name, args[i - 1]); }
      AbsentEnds(parts[i], ToolCallMarkup.opening);
    }
    NoClosingGlued(ToolCallMarkup, parts);
  }

  lemma TailRepeated<V>(before: string, m: Markup, segments: seq<string>, r: Reader<V>, calls: seq<Call<V>>)
    requires m.opening != "" && FirstAtEnd(before, m.opening) && calls != [] && calls == CallsIn(Trimmed(segments), |segments|, r)
    requires SplitInto(Glued(segments, m.opening), m.opening, segments)
    ensures RepeatedReading(m, before + m.opening + Glued(segments, m.opening), r, before, calls)
  {
    var rest := Glued(segments, m.opening);
    var text := before + m.opening + rest;
    FirstTagAt(before, m.opening, rest);
    assert text[|before| + |m.opening|..] == rest && text[..|before|] == before;
    assert RepeatedCalls(rest, m.opening, r, calls);
  }

  /** What follows the first tag of a text without closed blocks. */
  lemma TailRead<V>(before: string, segments: seq<string>, m: Markup, g: CR.Grammar<V>, calls: seq<Call<V>>)
    requires TagsApart(m) && Absent(before, m.opening) && Absent(before, m.closing)
    requires calls != [] && calls == CallsIn(Trimmed(segments), |segments|, g.reader)
    requires SplitInto(Glued(segments, m.opening), m.opening, segments) && Absent(Glued(segments, m.opening), m.closing)
    ensures Reading(m, before + m.opening + Glued(segments, m.opening), g.recognise, g.reader, before, calls)
  {
    var rest := Glued(segments, m.opening);
    AbsentEnds(before, m.opening);
    NoClosingAcross(m, before, rest);
    NothingClosed(m, before + m.opening + rest);
    NothingInTail(m, before + m.opening + rest, g.recognise);
    TailRepeated(before, m, segments, g.reader, calls);
  }

  lemma NothingInTail<V>(m: Markup, text: string, recognise: string -> Option<Call<V>>)
    requires Unclosed(m, text)
    ensures ClosedReading(m, text, recognise, text, [])
  {
    var cuts := Tail(text);
    assert Segmentation(m, cuts) && Source(m, cuts) == text && Visible(m, cuts, recognise) == text && Calls(cuts, recognise) == [];
  }

  lemma FirstTagAt(before: string, tag: string, rest: string)
    requires tag != "" && FirstAtEnd(before, tag)
    ensures Index(before + tag + rest, tag) == |before|
  {
    FirstTag(before, tag, rest);
    assert before + (tag + rest) == before + tag + rest;
    assert At(before + tag + rest, |before|, tag);
  }

  lemma RepeatedText(before: string, name: string, args: seq<Argument>)
    ensures before + Repeated(name, args) == before + ToolCallMarkup.opening + Glued(Segments(name, args), ToolCallMarkup.opening)
  {
    Seqs.Assoc(before, ToolCallMarkup.opening, Glued(Segments(name, args), ToolCallMarkup.opening));
  }

  /** The repeated form is read as the call it was written for. */
  lemma RepeatedIsRead<V>(before: string, name: string, args: seq<Argument>, d: Decoder<V>)
    requires Free(before) && IsName(name) && AllWritable(name, args) && Meant(args, d) != map[]
    ensures CR.Reads(CR.ClineGrammar(d), before + Repeated(name, args), before, [Named(name, Meant(args, d))])
  {
    OurTagsApart();
    SegmentsRead(name, args);
    OneCall(name, args, d);
    RepeatedSplit(name, args);
    TailRead(before, Segments(name, args), ToolCallMarkup, CR.ClineGrammar(d), [Named(name, Meant(args, d))]);
    RepeatedText(before, name, args);
  }

  // ---- the compact form ----

  /** A call whose arguments are given as JSON. */
  datatype Written = Written(name: string, text: string)

  function CompactSegment(w: Written): string { w.name + ("," + w.text) }

  ghost predicate CompactWritable<V>(w: Written, d: Decoder<V>) {
    IsName(w.name) && IsTrimmed(w.text) && d.valid(w.text) && Free(CompactSegment(w))
  }

  function CompactSegments(ws: seq<Written>): (r: seq<string>)
    ensures |r| == |ws|
  {
    seq(|ws|, i requires 0 <= i < |ws| => CompactSegment(ws[i]))
  }

  function CompactCalls<V>(ws: seq<Written>): (r: seq<Call<V>>)
    ensures |r| == |ws|
  {
    seq(|ws|, i requires 0 <= i < |ws| => Compact(ws[i].name, ws[i].text))
  }

  lemma NoCommaInName(name: string)
    requires IsName(name)
    ensures ',' !in name
  {
    assert !NamePart(',');
  }

  lemma TextParsed(name: string, text: string)
    requires name != "" && Trim(name) == name && ',' !in name && Trim(text) == text
    ensures NameAndText(name + ("," + text)) == Some((name, text))
  {
    FirstOfChar(name, ',', text);
    Parts(name, ',', text);
  }

  lemma CompactParsed<V>(name: string, text: string, d: Decoder<V>)
    requires IsName(name) && ',' !in name && IsTrimmed(text) && d.valid(text)
    ensures CompactCall(name + ("," + text), d) == Some(Compact(name, text))
  {
    NameTrimmed(name);
    NothingToTrim(text);
    TextParsed(name, text);
  }

  lemma NamedSegment(name: string, text: string)
    requires IsName(name) && IsTrimmed(text)
    ensures !IsName(name + ("," + text)) && Trim(name + ("," + text)) == name + ("," + text)
  {
    NameTrimmed(name);
    MarkedIsNoName(name, ',', text);
    Ends(name, ',', text);
    NothingToTrim(name + ("," + text));
  }

  lemma CompactRead<V>(w: Written, d: Decoder<V>)
    requires CompactWritable(w, d)
    ensures CompactCall(CompactSegment(w), d) == Some(Compact(w.name, w.text))
    ensures !IsName(CompactSegment(w)) && Trim(CompactSegment(w)) == CompactSegment(w)
  {
    NoCommaInName(w.name);
    CompactParsed(w.name, w.text, d);
    NamedSegment(w.name, w.text);
  }

  ghost predicate AllCompact<V>(ws: seq<Written>, d: Decoder<V>) { forall i :: 0 <= i < |ws| ==> CompactWritable(ws[i], d) }

  lemma CompactsRead<V>(ws: seq<Written>, d: Decoder<V>)
    requires AllCompact(ws, d)
    ensures Trimmed(CompactSegments(ws)) == CompactSegments(ws)
    ensures forall i :: 0 <= i < |ws| ==> var s := CompactSegments(ws)[i];
      !SegmentReader(d).isName(s) && SegmentReader(d).compact(s) == Some(Compact(ws[i].name, ws[i].text))
  {
    forall i | 0 <= i < |ws|
      ensures var s := CompactSegments(ws)[i];
        Trim(s) == s && !IsName(s) && CompactCall(s, d) == Some(Compact(ws[i].name, ws[i].text))
    {
      assert CompactWritable(ws[i], d);
      CompactRead(ws[i], d);
    }
  }

  /** Without names every compact segment is a call. */
  lemma {:induction false} EachIsCall<V>(parts: seq<string>, n: nat, r: Reader<V>, calls: seq<Call<V>>)
    requires n <= |parts| == |calls|
    requires forall i :: 0 <= i < |parts| ==> !r.isName(parts[i]) && r.compact(parts[i]) == Some(calls[i])
    ensures CallsIn(parts, n, r) == calls[..n]
  {
    if n > 0 {
      EachIsCall(parts, n - 1, r, calls);
      assert CallAt(parts, n - 1, r) == [calls[n - 1]];
      assert calls[..n] == calls[..n - 1] + [calls[n - 1]];
    }
  }

  lemma CompactSplit<V>(ws: seq<Written>, d: Decoder<V>)
    requires ws != [] && AllCompact(ws, d)
    ensures SplitInto(Glued(CompactSegments(ws), ToolCallMarkup.opening), ToolCallMarkup.opening, CompactSegments(ws))
    ensures Absent(Glued(CompactSegments(ws), ToolCallMarkup.opening), ToolCallMarkup.closing)
  {
    var parts := CompactSegments(ws);
    OurTagsApart();
    forall i | 0 <= i < |parts|
      ensures Free(parts[i]) && FirstAtEnd(parts[i], ToolCallMarkup.opening)
    {
      assert CompactWritable(ws[i], d);
      AbsentEnds(parts[i], ToolCallMarkup.opening);
    }
    NoClosingGlued(ToolCallMarkup, parts);
  }

  function CompactText(ws: seq<Written>): string {
    ToolCallMarkup.opening + Glued(CompactSegments(ws), ToolCallMarkup.opening)
  }

  lemma WholeList<T>(s: seq<T>)
    ensures s[..|s|] == s
  {
  }

  lemma CompactsAre<V>(ws: seq<Written>, d: Decoder<V>)
    requires AllCompact(ws, d)
    ensures CallsIn(CompactSegments(ws), |ws|, SegmentReader(d)) == CompactCalls<V>(ws)
  {
    CompactsRead(ws, d);
    EachCompact(CompactSegments(ws), SegmentReader(d), CompactCalls(ws));
  }

  lemma EachCompact<V>(parts: seq<string>, r: Reader<V>, calls: seq<Call<V>>)
    requires |parts| == |calls|
    requires forall i :: 0 <= i < |parts| ==> !r.isName(parts[i]) && r.compact(parts[i]) == Some(calls[i])
    ensures CallsIn(parts, |parts|, r) == calls
  {
    EachIsCall(parts, |parts|, r, calls);
    WholeList(calls);
  }

  /** Calls in the compact form are read as written, all of them in order. */
  lemma CompactIsRead<V>(before: string, ws: seq<Written>, d: Decoder<V>)
    requires Free(before) && ws != [] && AllCompact(ws, d)
    ensures CR.Reads(CR.ClineGrammar(d), before + CompactText(ws), before, CompactCalls(ws))
  {
    var tag := ToolCallMarkup.opening;
    OurTagsApart();
    CompactsRead(ws, d);
    CompactsAre(ws, d);
    CompactSplit(ws, d);
    TailRead(before, CompactSegments(ws), ToolCallMarkup, CR.ClineGrammar(d), CompactCalls(ws));
    Seqs.Assoc(before, tag, Glued(CompactSegments(ws), tag));
  }

  // ---- the closed form ----

  lemma NothingToStrip(s: string)
    requires s != "" && !IsBlank(s[0]) && !IsBlank(s[|s| - 1])
    ensures Strip(s) == s
  {
  }

  function ClosedInner(name: string, rest: string): string { name + (":" + rest) }

  lemma ClosedRecognised<V>(name: string, rest: string, d: Decoder<V>)
    requires IsTrimmed(name) && ':' !in name && (rest != "" ==> !IsBlank(rest[|rest| - 1])) && d.pairs(rest) != map[]
    ensures Recognise(ClosedInner(name, rest), d) == Some(Named(name, d.pairs(rest)))
  {
    var s := ClosedInner(name, rest);
    assert s[0] == name[0] && s[|s| - 1] == if rest == "" then ':' else rest[|rest| - 1];
    NothingToStrip(s);
    FirstOfChar(name, ':', rest);
    Parts(name, ':', rest);
    NothingToTrim(name);
  }

  lemma OneBlock<V>(m: Markup, before: string, inner: string, after: string, recognise: string -> Option<Call<V>>, call: Call<V>)
    requires FirstAtEnd(before, m.opening) && FirstAtEnd(inner, m.closing) && Unclosed(m, after) && recognise(inner) == Some(call)
    ensures var cuts := Block(before, inner, Tail(after));
      && Segmentation(m, cuts) && Source(m, cuts) == before + (m.opening + inner + m.closing + after)
      && Visible(m, cuts, recognise) == before + after && ToolMarkup.Calls(cuts, recognise) == [call]
  {
    Emptied(after);
    assert [call] + ToolMarkup.Calls(Tail(after), recognise) == [call];
  }

  lemma Emptied(after: string)
    ensures "" + after == after
  {
  }

  lemma BlockRead<V>(m: Markup, before: string, inner: string, after: string, recognise: string -> Option<Call<V>>, call: Call<V>, r: Reader<V>)
    requires FirstAtEnd(before, m.opening) && FirstAtEnd(inner, m.closing) && Unclosed(m, after) && recognise(inner) == Some(call)
    ensures Reading(m, before + (m.opening + inner + m.closing + after), recognise, r, before + after, [call])
  {
    OneBlock(m, before, inner, after, recognise, call);
    assert ClosedReading(m, before + (m.opening + inner + m.closing + after), recognise, before + after, [call]);
  }

  /** A closed block is read as its name and its argument pairs, and what stands around it
      is left. */
  lemma ClosedIsRead<V>(before: string, name: string, rest: string, after: string, d: Decoder<V>)
    requires Free(before) && Absent(ClosedInner(name, rest), ToolCallMarkup.closing) && Absent(after, ToolCallMarkup.closing)
    requires IsTrimmed(name) && ':' !in name && (rest != "" ==> !IsBlank(rest[|rest| - 1])) && d.pairs(rest) != map[]
    ensures CR.Reads(CR.ClineGrammar(d),
      before + (ToolCallMarkup.opening + ClosedInner(name, rest) + ToolCallMarkup.closing + after),
      before + after, [Named(name, d.pairs(rest))])
  {
    OurTagsApart();
    AbsentEnds(before, ToolCallMarkup.opening);
    AbsentEnds(ClosedInner(name, rest), ToolCallMarkup.closing);
    NothingClosed(ToolCallMarkup, after);
    ClosedRecognised(name, rest, d);
    BlockRead(ToolCallMarkup, before, ClosedInner(name, rest), after, CR.ClineGrammar(d).recognise, Named(name, d.pairs(rest)),
      CR.ClineGrammar(d).reader);
  }
}
