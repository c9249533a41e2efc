/** The second form of textual tool calls, in which the opening tag is repeated instead
    of closed, and the parser that tries both forms. */
module RepeatedTags {
  import opened Text
  import opened ToolMarkup

  // ---- scanning the segments between tags ----

  /** How a trimmed segment is read: is it the name of a tool, is it a whole call in the
      compact form, and what does it add to the arguments of the named call before it. */
  datatype Reader<!V> = Reader(
    isName: string -> bool,
    compact: string -> Option<Call<V>>,
    argument: (string, string, map<string, V>) -> map<string, V>)

  ghost predicate Exclusive<V>(r: Reader<V>) {
    forall s :: r.isName(s) ==> r.compact(s).None?
  }

  predicate NameIn<V>(parts: seq<string>, lo: nat, hi: nat, r: Reader<V>)
    requires lo <= hi <= |parts|
  {
    exists i :: lo <= i < hi && r.isName(parts[i])
  }

  /** Where the run of arguments that starts at `from` ends: at the next name. */
  ghost function RunEnd<V>(parts: seq<string>, from: nat, r: Reader<V>): (n: nat)
    requires from <= |parts|
    ensures from <= n <= |parts| && !NameIn(parts, from, n, r) && (n == |parts| || r.isName(parts[n]))
    decreases |parts| - from
  {
    if from == |parts| || r.isName(parts[from]) then from else RunEnd(parts, from + 1, r)
  }

  ghost function Gathered<V>(parts: seq<string>, name: string, lo: nat, hi: nat, r: Reader<V>): map<string, V>
    requires lo <= hi <= |parts|
  {
    if lo == hi then map[] else r.argument(name, parts[hi - 1], Gathered(parts, name, lo, hi - 1, r))
  }

  /** What the segment at `i` contributes, read off its surroundings: a name is a call
      if the segments up to the next name give it an argument; the compact form is a
      call only as long as no name has come before it. */
  ghost function CallAt<V>(parts: seq<string>, i: nat, r: Reader<V>): seq<Call<V>>
    requires i < |parts|
  {
    if r.isName(parts[i]) then
      var arguments := Gathered(parts, parts[i], i + 1, RunEnd(parts, i + 1, r), r);
      if arguments == map[] then [] else [Named(parts[i], arguments)]
    else if r.compact(parts[i]).Some? && !NameIn(parts, 0, i, r) then [r.compact(parts[i]).value]
    else []
  }

  ghost function CallsIn<V>(parts: seq<string>, n: nat, r: Reader<V>): seq<Call<V>>
    requires n <= |parts|
  {
    if n == 0 then [] else CallsIn(parts, n - 1, r) + CallAt(parts, n - 1, r)
  }

  lemma {:induction false} NoCallsInRun<V>(parts: seq<string>, lo: nat, hi: nat, r: Reader<V>)
    requires lo <= hi <= |parts| && NameIn(parts, 0, lo, r) && !NameIn(parts, lo, hi, r)
    ensures CallsIn(parts, hi, r) == CallsIn(parts, lo, r)
    decreases hi
  {
    if lo < hi {
      assert !NameIn(parts, lo, hi - 1, r);
      NoCallsInRun(parts, lo, hi - 1, r);
      assert NameIn(parts, 0, hi - 1, r) by {
        var i :| 0 <= i < lo && r.isName(parts[i]);
        assert 0 <= i < hi - 1 && r.isName(parts[i]);
      }
      assert CallAt(parts, hi - 1, r) == [];
    }
  }

  lemma RunEndIs<V>(parts: seq<string>, from: nat, n: nat, r: Reader<V>)
    requires from <= n <= |parts| && !NameIn(parts, from, n, r) && (n == |parts| || r.isName(parts[n]))
    ensures RunEnd(parts, from, r) == n
  {
    var e := RunEnd(parts, from, r);
    assert NameIn(parts, from, n, r) || n <= e;
    assert NameIn(parts, from, e, r) || e <= n;
  }

  /** The scan with its two cursors finds exactly the calls read off segment by segment. */
  method Scan<V>(parts: seq<string>, r: Reader<V>) returns (calls: seq<Call<V>>)
    requires Exclusive(r)
    ensures calls == CallsIn(parts, |parts|, r)
  {
    calls := [];
    var index := 0;
    while index < |parts|
      invariant 0 <= index <= |parts| && calls == CallsIn(parts, index, r)
      invariant !NameIn(parts, 0, index, r) || index == |parts| || r.isName(parts[index])
      decreases |parts| - index
    {
      var segment := parts[index];
      var compact := r.compact(segment);
      if compact.Some? {
        calls := calls + [compact.value];
        index := index + 1;
      } else if !r.isName(segment) {
        index := index + 1;
      } else {
        var arguments, cursor := Gather(parts, segment, index + 1, r);
        RunEndIs(parts, index + 1, cursor, r);
        assert NameIn(parts, 0, index + 1, r);
        NoCallsInRun(parts, index + 1, cursor, r);
        if arguments != map[] {
          calls := calls + [Named(segment, arguments)];
        }
        index := if cursor <= index then index + 1 else cursor;
      }
    }
  }

  method Gather<V>(parts: seq<string>, name: string, from: nat, r: Reader<V>) returns (arguments: map<string, V>, cursor: nat)
    requires from <= |parts|
    ensures from <= cursor <= |parts| && !NameIn(parts, from, cursor, r) && (cursor == |parts| || r.isName(parts[cursor]))
    ensures arguments == Gathered(parts, name, from, cursor, r)
  {
    arguments, cursor := map[], from;
    while cursor < |parts|
      invariant from <= cursor <= |parts| && !NameIn(parts, from, cursor, r)
      invariant arguments == Gathered(parts, name, from, cursor, r)
    {
      var part := parts[cursor];
      if r.isName(part) {
        break;
      }
      arguments := r.argument(name, part, arguments);
      cursor := cursor + 1;
    }
  }

  // ---- how one segment is read ----

  predicate NameStart(c: char) { 'A' <= c <= 'Z' || 'a' <= c <= 'z' || c == '_' }

  predicate NamePart(c: char) { NameStart(c) || '0' <= c <= '9' || c == '.' || c == '-' }

  predicate IsName(s: string) {
    s != "" && NameStart(s[0]) && forall i :: 0 <= i < |s| ==> NamePart(s[i])
  }

  /** name,{"json":"arguments"} */
  function CompactCall<V>(segment: string, decode: Decoder<V>): Option<Call<V>> {
    var pair := NameAndText(segment);
    if pair.Some? && IsName(pair.value.0) && decode.valid(pair.value.1) then Some(Compact(pair.value.0, pair.value.1)) else None
  }

  /** What stands before and after the first comma. */
  function NameAndText(segment: string): Option<(string, string)> {
    var comma := Index(segment, ",");
    if comma <= 0 then None else Some((Trim(segment[..comma]), Trim(segment[comma + 1..])))
  }

  /** What a segment adds to the arguments of the call `name`: nothing without a key and
      a value, the members of the object after args: or arguments:, else one entry. */
  function AddArgument<V>(name: string, part: string, arguments: map<string, V>, decode: Decoder<V>): map<string, V> {
    var pair := KeyValue(part);
    if pair.None? then arguments else AddPair(name, pair.value.0, pair.value.1, arguments, decode)
  }

  /** What stands before and after the first colon. */
  function KeyValue(part: string): Option<(string, string)> {
    var colon := Index(part, ":");
    if colon <= 0 then None else Some((Trim(part[..colon]), Trim(part[colon + 1..])))
  }

  predicate PassedOver(name: string, key: string) { EqualFold(key, name) || EqualFold(key, "run_in_background") }

  predicate IsObjectWord(key: string) { EqualFold(key, "args") || EqualFold(key, "arguments") }

  function AddPair<V>(name: string, key: string, value: string, arguments: map<string, V>, decode: Decoder<V>): map<string, V> {
    if key == "" || value == "" || PassedOver(name, key) then arguments
    else if IsObjectWord(key) then
      var members := decode.members(value);
      if members.Some? then arguments + members.value else arguments
    else arguments[key := decode.value(value)]
  }

  function SegmentReader<V>(decode: Decoder<V>): Reader<V> {
    Reader(
      s => IsName(s),
      s => CompactCall(s, decode),
      (name, part, arguments) => AddArgument(name, part, arguments, decode))
  }

  lemma CommaAt(s: string)
    ensures Index(s, ",") >= 0 ==> ',' in s
  {
    var comma := Index(s, ",");
    assert comma >= 0 ==> s[comma..comma + 1][0] == ',';
  }

  lemma CompactHasComma<V>(s: string, decode: Decoder<V>)
    requires CompactCall(s, decode).Some?
    ensures Index(s, ",") >= 0
  {
  }

  lemma NamesHaveNoComma(s: string)
    requires IsName(s)
    ensures Index(s, ",") < 0
  {
    CommaAt(s);
    assert !NamePart(',');
  }

  lemma NamesAreNotCompact<V>(decode: Decoder<V>)
    ensures Exclusive(SegmentReader(decode))
  {
    var r := SegmentReader(decode);
    forall s | r.isName(s)
      ensures r.compact(s).None?
    {
      NamesHaveNoComma(s);
      if CompactCall(s, decode).Some? {
        CompactHasComma(s, decode);
      }
    }
  }

  // ---- splitting at the tag ----

  function Glued(segments: seq<string>, sep: string): string {
    if segments == [] then "" else if |segments| == 1 then segments[0]
    else segments[0] + sep + Glued(segments[1..], sep)
  }

  ghost predicate Absent(s: string, part: string) {
    forall i :: 0 <= i ==> !At(s, i, part)
  }

  /** The segments between the separators of a text, each ended by the first separator
      after it. */
  ghost predicate SplitInto(s: string, sep: string, segments: seq<string>) {
    && segments != [] && Glued(segments, sep) == s
    && (forall i :: 0 <= i < |segments| - 1 ==> FirstAtEnd(segments[i], sep))
    && Absent(segments[|segments| - 1], sep)
  }

  method Split(s: string, sep: string) returns (segments: seq<string>)
    requires sep != ""
    ensures SplitInto(s, sep, segments)
  {
    segments := [];
    var rest, at := s, Index(s, sep);
    while at >= 0
      invariant at == Index(rest, sep)
      invariant Glued(segments + [rest], sep) == s
      invariant forall i :: 0 <= i < |segments| ==> FirstAtEnd(segments[i], sep)
      decreases |rest|
    {
      OccurrenceFrom(rest, sep, 0, at);
      assert rest[0..at] == rest[..at] && rest == rest[..at] + sep + rest[at + |sep|..];
      Separated(segments, rest[..at], rest[at + |sep|..], sep);
      segments := segments + [rest[..at]];
      rest := rest[at + |sep|..];
      at := Index(rest, sep);
    }
    segments := segments + [rest];
  }

  lemma {:induction false} Separated(segments: seq<string>, a: string, b: string, sep: string)
    ensures Glued(segments + [a] + [b], sep) == Glued(segments + [a + sep + b], sep)
  {
    if segments == [] {
      assert [a] + [b] == [a, b] && [a, b][1..] == [b];
    } else {
      Separated(segments[1..], a, b, sep);
      assert (segments + [a] + [b])[1..] == segments[1..] + [a] + [b];
      assert (segments + [a + sep + b])[1..] == segments[1..] + [a + sep + b];
    }
  }

  /** The first segment ends at the first separator. */
  lemma FirstSegment(segments: seq<string>, s: string, sep: string)
    requires sep != "" && SplitInto(s, sep, segments)
    ensures Index(s, sep) == if |segments| == 1 then -1 else |segments[0]|
  {
    var at := Index(s, sep);
    if |segments| > 1 {
      var first, more := segments[0], Glued(segments[1..], sep);
      assert s == "" + (first + sep + more);
      forall i | 0 <= i <= |first|
        ensures At(s, i, sep) <==> i == |first|
      {
        OccurrenceAfter("", first, sep, more, i);
      }
      assert At(s, |first|, sep);
    }
  }

  /** There is only one way to split a text so. */
  lemma {:induction false} OneSplit(x: seq<string>, y: seq<string>, s: string, sep: string)
    requires sep != "" && SplitInto(s, sep, x) && SplitInto(s, sep, y)
    ensures x == y
    decreases |x|
  {
    FirstSegment(x, s, sep);
    FirstSegment(y, s, sep);
    if |x| == 1 {
      assert x == [s] && y == [s];
    } else {
      var n := |x[0]|;
      assert s[..n] == x[0] == y[0];
      assert s[n + |sep|..] == Glued(x[1..], sep) == Glued(y[1..], sep);
      OneSplit(x[1..], y[1..], s[n + |sep|..], sep);
      assert x == [x[0]] + x[1..] && y == [y[0]] + y[1..];
    }
  }

  // ---- the whole parser ----

  function Trimmed(segments: seq<string>): (r: seq<string>)
    ensures |r| == |segments|
  {
    seq(|segments|, i requires 0 <= i < |segments| => Trim(segments[i]))
  }

  /** The calls among the segments of what follows the first tag. */
  ghost predicate RepeatedCalls<V>(rest: string, sep: string, r: Reader<V>, calls: seq<Call<V>>) {
    exists segments :: SplitInto(rest, sep, segments) && calls == CallsIn(Trimmed(segments), |segments|, r)
  }

  /** What the repeated form makes of a text whose first tag is at `first`: everything
      from there on is either the calls, or ordinary text if there are none. */
  ghost predicate ReadFrom<V>(text: string, sep: string, first: int, r: Reader<V>, visible: string, calls: seq<Call<V>>) {
    if 0 <= first && first + |sep| <= |text| then
      RepeatedCalls(text[first + |sep|..], sep, r, calls) && visible == if calls == [] then text else text[..first]
    else
      visible == text && calls == []
  }

  ghost predicate RepeatedReading<V>(m: Markup, text: string, r: Reader<V>, visible: string, calls: seq<Call<V>>) {
    ReadFrom(text, m.opening, Index(text, m.opening), r, visible, calls)
  }

  method CollectRepeated<V>(rest: string, sep: string, r: Reader<V>) returns (calls: seq<Call<V>>)
    requires sep != "" && Exclusive(r)
    ensures RepeatedCalls(rest, sep, r, calls)
  {
    var segments := Split(rest, sep);
    calls := Scan(Trimmed(segments), r);
  }

  method ReadTail<V>(text: string, sep: string, first: int, r: Reader<V>) returns (visible: string, calls: seq<Call<V>>)
    requires sep != "" && Exclusive(r) && first + |sep| <= |text|
    ensures ReadFrom(text, sep, first, r, visible, calls)
  {
    visible, calls := text, [];
    if first >= 0 {
      calls := CollectRepeated(text[first + |sep|..], sep, r);
      if calls != [] {
        visible := text[..first];
      }
    }
  }

  method ParseRepeated<V>(m: Markup, text: string, r: Reader<V>) returns (visible: string, calls: seq<Call<V>>)
    requires Proper(m) && Exclusive(r)
    ensures RepeatedReading(m, text, r, visible, calls)
  {
    var first := Index(text, m.opening);
    if first < 0 {
      return text, [];
    }
    visible, calls := ReadTail(text, m.opening, first, r);
  }

  /** How a text is read: in the closed form if that finds a call, else in the repeated
      form. */
  ghost predicate Reading<V>(m: Markup, text: string, recognise: string -> Option<Call<V>>, r: Reader<V>, visible: string, calls: seq<Call<V>>) {
    || (ClosedReading(m, text, recognise, visible, calls) && calls != [])
    || (RepeatedReading(m, text, r, visible, calls) && exists shown :: ClosedReading(m, text, recognise, shown, []))
  }

  method Parse<V>(m: Markup, text: string, recognise: string -> Option<Call<V>>, r: Reader<V>) returns (visible: string, calls: seq<Call<V>>)
    requires Proper(m) && Exclusive(r)
    ensures Reading(m, text, recognise, r, visible, calls)
  {
    visible, calls := ParseClosed(m, text, recognise);
    if calls == [] {
      visible, calls := ParseRepeated(m, text, r);
    }
  }

  /** A text in which nothing is recognised comes back unchanged. */
  lemma NoCallsUnchanged<V>(m: Markup, text: string, recognise: string -> Option<Call<V>>, r: Reader<V>, visible: string, calls: seq<Call<V>>)
    requires Reading(m, text, recognise, r, visible, calls) && calls == []
    ensures visible == text
  {
  }

  /** Without an opening tag nothing is recognised. */
  lemma NoTagNoCalls<V>(m: Markup, text: string, recognise: string -> Option<Call<V>>, r: Reader<V>, visible: string, calls: seq<Call<V>>)
    requires Reading(m, text, recognise, r, visible, calls) && Absent(text, m.opening)
    ensures visible == text && calls == []
  {
    forall cuts | Segmentation(m, cuts) && Source(m, cuts) == text
      ensures cuts == Tail(text)
    {
      OneCut(m, cuts, Tail(text));
    }
  }

  /** Nothing is read from nothing. */
  lemma NothingInEmpty<V>(m: Markup, recognise: string -> Option<Call<V>>, r: Reader<V>)
    requires Proper(m)
    ensures Reading(m, "", recognise, r, "", [])
  {
    var cuts := Tail("");
    assert Segmentation(m, cuts) && Source(m, cuts) == "" && Visible(m, cuts, recognise) == "" && Calls(cuts, recognise) == [];
    assert ClosedReading(m, "", recognise, "", []);
    assert RepeatedReading(m, "", r, "", []);
  }

  lemma OneClosedReading<V>(m: Markup, text: string, recognise: string -> Option<Call<V>>,
                            visible: string, calls: seq<Call<V>>, visible': string, calls': seq<Call<V>>)
    requires ClosedReading(m, text, recognise, visible, calls) && ClosedReading(m, text, recognise, visible', calls')
    ensures visible == visible' && calls == calls'
  {
    forall x, y | Segmentation(m, x) && Source(m, x) == text && Segmentation(m, y) && Source(m, y) == text
      ensures x == y
    {
      OneCut(m, x, y);
    }
  }

  lemma OneRepeatedReading<V>(rest: string, sep: string, r: Reader<V>, calls: seq<Call<V>>, calls': seq<Call<V>>)
    requires sep != "" && RepeatedCalls(rest, sep, r, calls) && RepeatedCalls(rest, sep, r, calls')
    ensures calls == calls'
  {
    forall x, y | SplitInto(rest, sep, x) && SplitInto(rest, sep, y)
      ensures x == y
    {
      OneSplit(x, y, rest, sep);
    }
  }

  lemma OneReadFrom<V>(text: string, sep: string, first: int, r: Reader<V>,
                       visible: string, calls: seq<Call<V>>, visible': string, calls': seq<Call<V>>)
    requires sep != "" && ReadFrom(text, sep, first, r, visible, calls) && ReadFrom(text, sep, first, r, visible', calls')
    ensures visible == visible' && calls == calls'
  {
    if 0 <= first && first + |sep| <= |text| {
      OneRepeatedReading(text[first + |sep|..], sep, r, calls, calls');
    }
  }

  /** A text has one reading. */
  lemma OneReading<V>(m: Markup, text: string, recognise: string -> Option<Call<V>>, r: Reader<V>,
                      visible: string, calls: seq<Call<V>>, visible': string, calls': seq<Call<V>>)
    requires Proper(m) && Reading(m, text, recognise, r, visible, calls) && Reading(m, text, recognise, r, visible', calls')
    ensures visible == visible' && calls == calls'
  {
    forall shown, found, shown', found' |
      ClosedReading(m, text, recognise, shown, found) && ClosedReading(m, text, recognise, shown', found')
      ensures shown == shown' && found == found'
    {
      OneClosedReading(m, text, recognise, shown, found, shown', found');
    }
    if RepeatedReading(m, text, r, visible, calls) && RepeatedReading(m, text, r, visible', calls') {
      OneReadFrom(text, m.opening, Index(text, m.opening), r, visible, calls, visible', calls');
    }
  }
}
