/** The reader of a Cline response as it runs, and what it makes of a whole response. */
module ClineReader {
  import opened Text
  import opened ClineStream
  import Seqs
  import TS = ThinkSplitter
  import TM = ToolMarkup
  import RT = RepeatedTags

  // The text buffer is measured in bytes.
  const MaxBuffered := 0x10_0000

  /** How textual tool calls are recognised. */
  datatype Grammar<!V> = Grammar(recognise: string -> Option<TM.Call<V>>, reader: RT.Reader<V>)

  ghost predicate Reads<V>(g: Grammar<V>, text: string, visible: string, calls: seq<TM.Call<V>>) {
    RT.Reading(TM.ToolCallMarkup, text, g.recognise, g.reader, visible, calls)
  }

  /** The answer in three parts: what went out as it was, what was parsed for tool calls,
      and what came after native tool calls and went out as it was. */
  datatype Parts = Parts(flushed: string, parsed: string, visible: string, direct: string)

  /** Where the text of an answer stands: parts that went out, and a part still held. */
  ghost predicate Standing(toolsEnabled: bool, sawNative: bool, answer: string, shown: string, pending: string, p: Parts) {
    && answer == p.flushed + p.parsed + p.direct + pending
    && shown == p.flushed + p.visible + p.direct
    && (toolsEnabled && !sawNative ==> p.parsed == "" && p.visible == "" && p.direct == "")
    && (sawNative ==> pending == "")
    && (!toolsEnabled ==> pending == "" && p.flushed == "" && p.parsed == "" && p.visible == "")
    && Bytes(pending) <= MaxBuffered && Bytes(p.parsed) <= MaxBuffered
    && (p.flushed == "" || Bytes(p.flushed) > MaxBuffered)
  }

  lemma HeldMore(answer: string, shown: string, pending: string, p: Parts, text: string)
    requires Standing(true, false, answer, shown, pending, p) && Bytes(pending + text) <= MaxBuffered
    ensures Standing(true, false, answer + text, shown, pending + text, p)
  {
    Seqs.Assoc(p.flushed + p.parsed + p.direct, pending, text);
  }

  lemma TooMuchHeld(answer: string, shown: string, pending: string, p: Parts, text: string)
    requires Standing(true, false, answer, shown, pending, p) && Bytes(pending + text) > MaxBuffered
    ensures Standing(true, false, answer + text, shown + (pending + text), "", p.(flushed := p.flushed + (pending + text)))
  {
    assert shown == p.flushed && answer == p.flushed + pending;
    Seqs.Assoc(p.flushed, pending, text);
    BytesJoin(p.flushed, pending + text);
    NothingAdded(p.flushed + (pending + text));
  }

  lemma NothingAdded(s: string)
    ensures s + "" == s
  {
  }

  lemma Passed(toolsEnabled: bool, sawNative: bool, answer: string, shown: string, p: Parts, text: string)
    requires Standing(toolsEnabled, sawNative, answer, shown, "", p) && (sawNative || !toolsEnabled)
    ensures Standing(toolsEnabled, sawNative, answer + text, shown + text, "", p.(direct := p.direct + text))
  {
  }

  lemma Parsed(toolsEnabled: bool, answer: string, shown: string, pending: string, p: Parts, visible: string)
    requires Standing(toolsEnabled, false, answer, shown, pending, p) && pending != ""
    ensures Standing(toolsEnabled, true, answer, shown + visible, "", p.(parsed := pending, visible := visible))
  {
  }

  lemma NativeSeen(toolsEnabled: bool, answer: string, shown: string, p: Parts)
    requires Standing(toolsEnabled, false, answer, shown, "", p)
    ensures Standing(toolsEnabled, true, answer, shown, "", p)
  {
  }

  lemma HeardMore(log: seq<Out>, o: Out, ch: Channel)
    ensures Heard(log + [o], ch) == Heard(log, ch) + On(o, ch)
  {
    assert (log + [o])[..|log|] == log;
  }

  // ---- pieces of the think splitter ----

  function PieceText(pieces: seq<TS.Piece>, reasoning: bool): string {
    if pieces == [] then ""
    else PieceText(pieces[..|pieces| - 1], reasoning) + OnPiece(pieces[|pieces| - 1], reasoning)
  }

  function OnPiece(p: TS.Piece, reasoning: bool): string { if p.reasoning == reasoning then p.text else "" }

  lemma {:induction false} CharsOfMarks(s: string, mode: bool, reasoning: bool)
    ensures Chars(TS.Marks(mode, s), reasoning) == if mode == reasoning then s else ""
  {
    if s != "" {
      var most := s[..|s| - 1];
      CharsOfMarks(most, mode, reasoning);
      assert TS.Marks(mode, s)[..|s| - 1] == TS.Marks(mode, most);
      assert s == most + [s[|s| - 1]];
    }
  }

  lemma {:induction false} CharsJoin(a: seq<TS.Mark>, b: seq<TS.Mark>, reasoning: bool)
    ensures Chars(a + b, reasoning) == Chars(a, reasoning) + Chars(b, reasoning)
  {
    if b == [] {
      assert a + b == a;
    } else {
      var most, last := b[..|b| - 1], b[|b| - 1];
      CharsJoin(a, most, reasoning);
      assert (a + b)[..|a + b| - 1] == a + most;
      Seqs.Assoc(Chars(a, reasoning), Chars(most, reasoning), if last.reasoning == reasoning then [last.c] else "");
    }
  }

  lemma {:induction false} CharsOfPieces(pieces: seq<TS.Piece>, reasoning: bool)
    ensures Chars(TS.PieceMarks(pieces), reasoning) == PieceText(pieces, reasoning)
  {
    if pieces != [] {
      var most, last := pieces[..|pieces| - 1], pieces[|pieces| - 1];
      CharsOfPieces(most, reasoning);
      CharsJoin(TS.PieceMarks(most), TS.Marks(last.reasoning, last.text), reasoning);
      CharsOfMarks(last.text, last.reasoning, reasoning);
    }
  }

  lemma PieceTextMore(pieces: seq<TS.Piece>, p: TS.Piece, reasoning: bool)
    ensures PieceText(pieces + [p], reasoning) == PieceText(pieces, reasoning) + OnPiece(p, reasoning)
  {
    assert (pieces + [p])[..|pieces|] == pieces;
  }

  lemma {:induction false} PieceTextJoin(a: seq<TS.Piece>, b: seq<TS.Piece>, reasoning: bool)
    ensures PieceText(a + b, reasoning) == PieceText(a, reasoning) + PieceText(b, reasoning)
  {
    if b == [] {
      assert a + b == a;
    } else {
      var most, last := b[..|b| - 1], b[|b| - 1];
      PieceTextJoin(a, most, reasoning);
      PieceTextMore(a + most, last, reasoning);
      assert a + b == a + most + [last];
      Seqs.Assoc(PieceText(a, reasoning), PieceText(most, reasoning), OnPiece(last, reasoning));
    }
  }

  /** Some pieces took the answer and the inline reasoning from one value to another. */
  ghost predicate Sent(pieces: seq<TS.Piece>, answer0: string, inline0: string, answer: string, inline: string) {
    answer == answer0 + PieceText(pieces, false) && inline == inline0 + PieceText(pieces, true)
  }

  lemma SentNothing(answer: string, inline: string)
    ensures Sent([], answer, inline, answer, inline)
  {
  }

  lemma SentMore(pieces: seq<TS.Piece>, k: nat, answer0: string, inline0: string, answer: string, inline: string)
    requires k < |pieces| && Sent(pieces[..k], answer0, inline0, answer, inline)
    ensures Sent(pieces[..k + 1], answer0, inline0, answer + OnPiece(pieces[k], false), inline + OnPiece(pieces[k], true))
  {
    assert pieces[..k + 1][..k] == pieces[..k];
    Seqs.Assoc(answer0, PieceText(pieces[..k], false), OnPiece(pieces[k], false));
    Seqs.Assoc(inline0, PieceText(pieces[..k], true), OnPiece(pieces[k], true));
  }

  // ---- the reader ----

  method ReadHeld<V>(g: Grammar<V>, text: string) returns (visible: string, calls: seq<TM.Call<V>>)
    requires RT.Exclusive(g.reader)
    ensures Reads(g, text, visible, calls)
  {
    visible, calls := RT.Parse(TM.ToolCallMarkup, text, g.recognise, g.reader);
  }

  class Reader<V> {
    const g: Grammar<V>
    const toolsEnabled: bool
    var log: seq<Out>
    var pendingText: string
    var sawNative: bool
    // What the tool accumulator is given: fragments of native calls, whole textual calls.
    var tools: seq<ToolDelta>
    var textual: seq<TM.Call<V>>

    // The text of the answer so far, and what became of it.
    ghost var answer: string
    ghost var flushed: string
    ghost var parsed: string
    ghost var visible: string
    ghost var calls: seq<TM.Call<V>>
    ghost var direct: string
    // Held text is released when native tool calls begin, or else at the end.
    ghost var released: bool

    ghost predicate Valid()
      reads this
    {
      && Standing(toolsEnabled, released, answer, Heard(log, TextChannel), pendingText, Parts(flushed, parsed, visible, direct))
      && (sawNative ==> released)
      && (!released ==> calls == [])
    }

    ghost predicate ParsedRight()
      reads `parsed, `visible, `calls
    {
      RT.Exclusive(g.reader) && if parsed == "" then visible == "" && calls == [] else Reads(g, parsed, visible, calls)
    }

    /** The part of the answer that was held back, for as long as text is. */
    ghost function Taken(): string
      reads `flushed, `parsed
    {
      flushed + parsed
    }

    constructor (g: Grammar<V>, toolsEnabled: bool)
      requires RT.Exclusive(g.reader)
      ensures Valid() && ParsedRight() && this.g == g && this.toolsEnabled == toolsEnabled
      ensures log == [] && tools == [] && textual == [] && !sawNative && !released && answer == "" && pendingText == ""
    {
      this.g, this.toolsEnabled := g, toolsEnabled;
      log, pendingText, sawNative, tools, textual := [], "", false, [], [];
      answer, flushed, parsed, visible, calls, direct, released := "", "", "", "", [], "", false;
    }

    /** Empty pieces are not sent. */
    method Emit(o: Out)
      modifies `log
      ensures forall ch :: Heard(log, ch) == Heard(old(log), ch) + On(o, ch)
    {
      forall ch {
        HeardMore(log, o, ch);
      }
      if o.text != "" {
        log := log + [o];
      }
    }

    method EmitReasoning(text: string, inline: bool)
      requires Valid()
      modifies `log
      ensures Valid() && Heard(log, TextChannel) == Heard(old(log), TextChannel)
      ensures Heard(log, InlineChannel) == Heard(old(log), InlineChannel) + if inline then text else ""
      ensures Heard(log, FieldChannel) == Heard(old(log), FieldChannel) + if inline then "" else text
    {
      Emit(ReasoningOut(text, inline));
      assert Heard(old(log), TextChannel) + "" == Heard(old(log), TextChannel);
    }

    /** Text of the answer is held back while it may still turn out to be a tool call,
        but no more than 1 MiB of it. */
    method EmitContent(content: string)
      requires Valid() && released == sawNative
      modifies `log, `pendingText, `answer, `flushed, `direct
      ensures Valid() && answer == old(answer) + content
      ensures forall ch: Channel :: !ch.TextChannel? ==> Heard(log, ch) == Heard(old(log), ch)
      ensures sawNative ==> flushed == old(flushed)
    {
      if content == "" {
        return;
      }
      if toolsEnabled && !sawNative {
        HoldBack(content);
      } else {
        PassOn(content);
      }
    }

    method HoldBack(content: string)
      requires Valid() && released == sawNative && toolsEnabled && !sawNative
      modifies `log, `pendingText, `answer, `flushed
      ensures Valid() && answer == old(answer) + content
      ensures forall ch: Channel :: !ch.TextChannel? ==> Heard(log, ch) == Heard(old(log), ch)
    {
      if Bytes(pendingText + content) <= MaxBuffered {
        HeldMore(answer, Heard(log, TextChannel), pendingText, Parts(flushed, parsed, visible, direct), content);
      } else {
        TooMuchHeld(answer, Heard(log, TextChannel), pendingText, Parts(flushed, parsed, visible, direct), content);
      }
      pendingText := pendingText + content;
      answer := answer + content;
      if Bytes(pendingText) > MaxBuffered {
        Emit(TextOut(pendingText));
        flushed := flushed + pendingText;
        pendingText := "";
      }
    }

    method PassOn(content: string)
      requires Valid() && released == sawNative && (sawNative || !toolsEnabled)
      modifies `log, `answer, `direct
      ensures Valid() && answer == old(answer) + content
      ensures forall ch: Channel :: !ch.TextChannel? ==> Heard(log, ch) == Heard(old(log), ch)
    {
      Passed(toolsEnabled, sawNative, answer, Heard(log, TextChannel), Parts(flushed, parsed, visible, direct), content);
      Emit(TextOut(content));
      direct := direct + content;
      answer := answer + content;
    }

    /** Sends one piece of the think splitter where it belongs. */
    method DeliverOne(piece: TS.Piece)
      requires Valid() && released == sawNative
      modifies `log, `pendingText, `answer, `flushed, `direct
      ensures Valid() && answer == old(answer) + OnPiece(piece, false)
      ensures Heard(log, InlineChannel) == Heard(old(log), InlineChannel) + OnPiece(piece, true)
      ensures Heard(log, FieldChannel) == Heard(old(log), FieldChannel)
      ensures sawNative ==> flushed == old(flushed)
    {
      if piece.reasoning {
        EmitReasoning(piece.text, true);
        assert answer + "" == answer && Heard(old(log), FieldChannel) + "" == Heard(old(log), FieldChannel);
      } else {
        EmitContent(piece.text);
        assert Heard(old(log), InlineChannel) + "" == Heard(old(log), InlineChannel);
      }
    }

    /** Some pieces have been delivered since the answer and the two kinds of reasoning stood
        as given. */
    ghost predicate Delivering(pieces: seq<TS.Piece>, answer0: string, inline0: string, field0: string, flushed0: string)
      reads this
    {
      && Valid() && released == sawNative
      && Sent(pieces, answer0, inline0, answer, Heard(log, InlineChannel))
      && Heard(log, FieldChannel) == field0 && (sawNative ==> flushed == flushed0)
    }

    method DeliverNext(pieces: seq<TS.Piece>, k: nat, ghost answer0: string, ghost inline0: string, ghost field0: string,
                       ghost flushed0: string)
      requires k < |pieces| && Delivering(pieces[..k], answer0, inline0, field0, flushed0)
      modifies `log, `pendingText, `answer, `flushed, `direct
      ensures Delivering(pieces[..k + 1], answer0, inline0, field0, flushed0)
    {
      SentMore(pieces, k, answer0, inline0, answer, Heard(log, InlineChannel));
      DeliverOne(pieces[k]);
    }

    method Deliver(pieces: seq<TS.Piece>)
      requires Valid() && released == sawNative
      modifies `log, `pendingText, `answer, `flushed, `direct
      ensures Delivering(pieces, old(answer), old(Heard(log, InlineChannel)), old(Heard(log, FieldChannel)), old(flushed))
    {
      ghost var answer0, inline0, field0, flushed0 := answer, Heard(log, InlineChannel), Heard(log, FieldChannel), flushed;
      var k := 0;
      SentNothing(answer, Heard(log, InlineChannel));
      assert pieces[..0] == [];
      while k < |pieces|
        invariant 0 <= k <= |pieces| && Delivering(pieces[..k], answer0, inline0, field0, flushed0)
      {
        DeliverNext(pieces, k, answer0, inline0, field0, flushed0);
        k := k + 1;
      }
      assert pieces[..k] == pieces;
    }

    /** Sends what is held back, without the tool calls in it. */
    method Release() returns (found: seq<TM.Call<V>>)
      requires Valid() && ParsedRight() && !released && pendingText != ""
      modifies `log, `pendingText, `parsed, `visible, `calls, `released
      ensures Valid() && ParsedRight() && released && found == calls && pendingText == ""
      ensures forall ch: Channel :: !ch.TextChannel? ==> Heard(log, ch) == Heard(old(log), ch)
    {
      var shown;
      shown, found := ReadHeld(g, pendingText);
      Parsed(toolsEnabled, answer, Heard(log, TextChannel), pendingText, Parts(flushed, parsed, visible, direct), shown);
      Emit(TextOut(shown));
      parsed, visible, calls := pendingText, shown, found;
      pendingText := "";
      released := true;
    }

    /** Native tool calls and text are duplicate encodings, so the first native call
        releases the text held so far without the calls in it. */
    method OnNative()
      requires Valid() && ParsedRight() && released == sawNative
      modifies `log, `pendingText, `parsed, `visible, `calls, `released, `sawNative
      ensures Valid() && ParsedRight() && released && sawNative
      ensures Taken() == if old(sawNative) || !toolsEnabled then old(Taken()) else answer
      ensures forall ch: Channel :: !ch.TextChannel? ==> Heard(log, ch) == Heard(old(log), ch)
    {
      if !sawNative {
        if pendingText != "" {
          var _ := Release();
        } else {
          NativeSeen(toolsEnabled, answer, Heard(log, TextChannel), Parts(flushed, parsed, visible, direct));
          released := true;
        }
        sawNative := true;
      }
    }

    method AddNative(deltas: seq<ToolDelta>)
      requires Valid() && ParsedRight() && released == sawNative
      modifies `log, `pendingText, `parsed, `visible, `calls, `released, `sawNative, `tools
      ensures Valid() && ParsedRight() && released == sawNative == (old(sawNative) || deltas != [])
      ensures tools == old(tools) + deltas
      ensures Taken() == if old(sawNative) || !toolsEnabled || deltas == [] then old(Taken()) else answer
      ensures forall ch: Channel :: !ch.TextChannel? ==> Heard(log, ch) == Heard(old(log), ch)
    {
      var k := 0;
      while k < |deltas|
        invariant 0 <= k <= |deltas| && Valid() && ParsedRight()
        invariant released == sawNative == (old(sawNative) || k > 0)
        invariant tools == old(tools) + deltas[..k]
        invariant Taken() == if old(sawNative) || !toolsEnabled || k == 0 then old(Taken()) else answer
        invariant forall ch: Channel :: !ch.TextChannel? ==> Heard(log, ch) == Heard(old(log), ch)
      {
        OnNative();
        tools := tools + [deltas[k]];
        k := k + 1;
      }
      assert deltas[..k] == deltas;
    }

    /** At the end of the stream held text is parsed, and the calls in it count, unless
        there were native ones. */
    method Finish()
      requires Valid() && ParsedRight() && released == sawNative
      modifies `log, `pendingText, `parsed, `visible, `calls, `released, `textual
      ensures Valid() && ParsedRight() && pendingText == ""
      ensures old(sawNative) || !toolsEnabled ==> calls == old(calls) && textual == old(textual)
      ensures !old(sawNative) && toolsEnabled ==> textual == old(textual) + calls && Taken() == answer
      ensures old(sawNative) ==> Taken() == old(Taken())
      ensures forall ch: Channel :: !ch.TextChannel? ==> Heard(log, ch) == Heard(old(log), ch)
    {
      assert textual + [] == textual;
      if toolsEnabled && !sawNative && pendingText != "" {
        var found := Release();
        textual := textual + found;
      }
    }
  }

  // ---- whole responses ----

  /** What some deltas carry in all. */
  datatype Totals = Totals(content: string, field: string, tools: seq<ToolDelta>)

  function With(t: Totals, d: Delta): Totals {
    Totals(t.content + d.content, t.field + FieldReasoning(d), t.tools + d.tools)
  }

  /** What splitter and reader have done so far. */
  datatype Progress = Progress(fed: string, out: seq<TS.Piece>, answer: string, inline: string, field: string,
    tools: seq<ToolDelta>, sawNative: bool)

  ghost function Done<V>(s: TS.Splitter, r: Reader<V>): Progress
    reads s, r
  {
    Progress(s.fed, s.out, r.answer, Heard(r.log, InlineChannel), Heard(r.log, FieldChannel), r.tools, r.sawNative)
  }

  /** Splitter and reader agree with the deltas read so far. */
  ghost predicate Tracked(t: Totals, p: Progress) {
    && p.fed == t.content && p.answer == PieceText(p.out, false) && p.inline == PieceText(p.out, true)
    && p.field == t.field && p.tools == t.tools && (p.sawNative <==> t.tools != [])
  }

  ghost function Reasoned(p: Progress, text: string): Progress { p.(field := p.field + text) }

  ghost function Spoken(p: Progress, content: string, pieces: seq<TS.Piece>): Progress {
    p.(fed := p.fed + content, out := p.out + pieces, answer := p.answer + PieceText(pieces, false), inline := p.inline + PieceText(pieces, true))
  }

  ghost function Called(p: Progress, tools: seq<ToolDelta>): Progress {
    p.(tools := p.tools + tools, sawNative := p.sawNative || tools != [])
  }

  lemma TrackedMore(t: Totals, d: Delta, p: Progress, pieces: seq<TS.Piece>)
    requires Tracked(t, p)
    ensures Tracked(With(t, d), Called(Spoken(Reasoned(p, FieldReasoning(d)), d.content, pieces), d.tools))
  {
    PieceTextJoin(p.out, pieces, false);
    PieceTextJoin(p.out, pieces, true);
  }

  method Reason<V>(s: TS.Splitter, r: Reader<V>, text: string)
    requires r.Valid()
    modifies r`log
    ensures r.Valid() && Done(s, r) == Reasoned(old(Done(s, r)), text)
  {
    ghost var inline := Heard(r.log, InlineChannel);
    r.EmitReasoning(text, false);
    assert inline + "" == inline;
  }

  method Speak<V>(s: TS.Splitter, r: Reader<V>, content: string) returns (ghost emitted: seq<TS.Piece>)
    requires s.Valid() && r.Valid() && r.released == r.sawNative
    modifies s, r`log, r`pendingText, r`answer, r`flushed, r`direct
    ensures s.Valid() && r.Valid() && Done(s, r) == Spoken(old(Done(s, r)), content, emitted)
    ensures r.sawNative ==> r.Taken() == old(r.Taken())
  {
    emitted := [];
    SentNothing(r.answer, Heard(r.log, InlineChannel));
    if content == "" {
      assert s.fed + content == s.fed && s.out + [] == s.out;
    } else {
      var pieces := s.Feed(content, false);
      r.Deliver(pieces);
      emitted := pieces;
    }
  }

  method Call<V>(s: TS.Splitter, r: Reader<V>, tools: seq<ToolDelta>)
    requires r.Valid() && r.ParsedRight() && r.released == r.sawNative
    modifies r
    ensures r.Valid() && r.ParsedRight() && r.released == r.sawNative
    ensures Done(s, r) == Called(old(Done(s, r)), tools) && r.textual == old(r.textual)
    ensures r.Taken() == if old(r.sawNative) || !r.toolsEnabled || tools == [] then old(r.Taken()) else r.answer
  {
    r.AddNative(tools);
  }

  method ReasonAndSpeak<V>(s: TS.Splitter, r: Reader<V>, d: Delta) returns (ghost pieces: seq<TS.Piece>)
    requires s.Valid() && r.Valid() && r.released == r.sawNative
    modifies s, r`log, r`pendingText, r`answer, r`flushed, r`direct
    ensures s.Valid() && r.Valid() && Done(s, r) == Spoken(Reasoned(old(Done(s, r)), FieldReasoning(d)), d.content, pieces)
    ensures r.sawNative ==> r.Taken() == old(r.Taken())
  {
    Reason(s, r, FieldReasoning(d));
    pieces := Speak(s, r, d.content);
  }

  method OnDelta<V>(s: TS.Splitter, r: Reader<V>, d: Delta, ghost t: Totals)
    requires s.Valid() && r.Valid() && r.ParsedRight() && r.released == r.sawNative && Tracked(t, Done(s, r))
    modifies s, r
    ensures s.Valid() && r.Valid() && r.ParsedRight() && r.released == r.sawNative && Tracked(With(t, d), Done(s, r))
    ensures r.textual == old(r.textual)
    ensures old(r.sawNative) ==> r.Taken() == old(r.Taken())
    ensures !old(r.sawNative) && r.sawNative && r.toolsEnabled ==> r.Taken() == r.answer
  {
    ghost var pieces := ReasonAndSpeak(s, r, d);
    Call(s, r, d.tools);
    TrackedMore(t, d, old(Done(s, r)), pieces);
  }

  ghost function Total(ds: seq<Delta>): Totals {
    Totals(Content(ds), FieldReasonings(ds), NativeTools(ds))
  }

  lemma TotalMore(ds: seq<Delta>, d: Delta)
    ensures Total(ds + [d]) == With(Total(ds), d)
  {
    assert (ds + [d])[..|ds|] == ds;
  }

  /** The deltas up to the first with a native call. */
  function UpToNative(ds: seq<Delta>): seq<Delta> {
    if ds == [] then []
    else
      var most := ds[..|ds| - 1];
      if NativeTools(most) != [] then UpToNative(most) else ds
  }

  /** This is the answer as far as the deltas up to the first native call have it, but for
      what may be the beginning of a think tag. */
  ghost predicate TakenAtNative(ds: seq<Delta>, taken: string) {
    exists held: string :: held < TS.ThinkTags.opening && Answer(UpToNative(ds)) == taken + held
  }

  lemma TakenMore(ds: seq<Delta>, d: Delta, taken: string)
    requires NativeTools(ds) != [] && TakenAtNative(ds, taken)
    ensures TakenAtNative(ds + [d], taken)
  {
    assert (ds + [d])[..|ds|] == ds;
  }

  /** What the splitter still holds of a text. */
  lemma StillHeld(out: seq<TS.Piece>, pending: string, thinking: bool, fed: string)
    requires TS.Faithful(TS.ThinkTags, out, pending, thinking, fed) && pending < TS.Tag(TS.ThinkTags, thinking)
    ensures Chars(TS.Whole(TS.ThinkTags, fed, false), false) == PieceText(out, false) + if thinking then "" else pending
  {
    assert pending + "" == pending && fed + "" == fed;
    assert pending[..|pending|] == pending && pending[|pending|..] == "";
    TS.WholePlain(TS.ThinkTags, pending, thinking, |pending|);
    var marks := TS.Marks(thinking, pending);
    assert marks + [] == marks;
    CharsJoin(TS.PieceMarks(out), marks, false);
    CharsOfPieces(out, false);
    CharsOfMarks(pending, thinking, false);
  }

  lemma TakenNow(ds: seq<Delta>, d: Delta, out: seq<TS.Piece>, pending: string, thinking: bool)
    requires NativeTools(ds) == [] && pending < TS.Tag(TS.ThinkTags, thinking)
    requires TS.Faithful(TS.ThinkTags, out, pending, thinking, Content(ds + [d]))
    ensures TakenAtNative(ds + [d], PieceText(out, false))
  {
    assert (ds + [d])[..|ds|] == ds;
    StillHeld(out, pending, thinking, Content(ds + [d]));
    var held := if thinking then "" else pending;
    assert held < TS.ThinkTags.opening;
  }

  /** With tools, everything before native calls is looked through for textual ones, but
      for what had to be flushed. */
  ghost predicate Looked(ds: seq<Delta>, p: Parts) {
    if NativeTools(ds) == [] then p.flushed + p.parsed == Answer(ds) else TakenAtNative(ds, p.flushed + p.parsed)
  }

  /** What a response that was accepted has delivered. */
  ghost predicate Delivered<V>(g: Grammar<V>, toolsEnabled: bool, ds: seq<Delta>, log: seq<Out>, tools: seq<ToolDelta>,
                               textual: seq<TM.Call<V>>, p: Parts, calls: seq<TM.Call<V>>) {
    // Every character of the answer went out once and in order, but for what textual
    // calls took out of the one part that was parsed for them.
    && Answer(ds) == p.flushed + p.parsed + p.direct
    && Heard(log, TextChannel) == p.flushed + p.visible + p.direct
    && Bytes(p.parsed) <= MaxBuffered && (!toolsEnabled ==> p.flushed == "" && p.parsed == "")
    && (p.flushed == "" || Bytes(p.flushed) > MaxBuffered)
    && (toolsEnabled ==> Looked(ds, p))
    // Native calls make the textual ones duplicates.
    && tools == NativeTools(ds)
    && (if p.parsed == "" then p.visible == "" && calls == [] else Reads(g, p.parsed, p.visible, calls))
    && textual == (if tools == [] then calls else [])
    // Reasoning is complete on both its channels.
    && Heard(log, InlineChannel) == InlineReasoning(ds) && Heard(log, FieldChannel) == FieldReasonings(ds)
  }

  function Lines(raw: seq<string>, decode: string -> Decoded): (r: seq<Line>)
    ensures |r| == |raw|
  {
    seq(|raw|, i requires 0 <= i < |raw| => ReadLine(raw[i], decode))
  }

  /** What is left to read, after some lines and the deltas in them. */
  ghost predicate Underway(lines: seq<Line>, k: nat, readFails: bool, finished: bool, ds: seq<Delta>)
    requires k <= |lines|
  {
    Ending(lines, readFails, false) == Ending(lines[k..], readFails, finished) && Deltas(lines) == ds + Deltas(lines[k..])
  }

  lemma UnderwayMore(lines: seq<Line>, k: nat, readFails: bool, finished: bool, ds: seq<Delta>)
    requires k < |lines| && Underway(lines, k, readFails, finished, ds)
    ensures lines[k].Done? ==> Ending(lines, readFails, false) == Completed && Deltas(lines) == ds + []
    ensures lines[k].Data? && lines[k].decoded.Invalid? ==> Ending(lines, readFails, false) == ProtocolError
    ensures lines[k].Data? && lines[k].decoded.Failed? ==> Ending(lines, readFails, false) == UpstreamError
    ensures !lines[k].Done? && !Bad(lines[k]) ==> Underway(lines, k + 1, readFails, finished || FinishLine(lines[k]),
      ds + if HasDelta(lines[k]) then [lines[k].decoded.choice.value] else [])
  {
    assert lines[k..][1..] == lines[k + 1..];
    if HasDelta(lines[k]) {
      Seqs.Assoc(ds, [lines[k].decoded.choice.value], Deltas(lines[k + 1..]));
    }
    assert ds + [] == ds;
  }

  /** The splitter has let go of everything, and all of it has been delivered. */
  ghost predicate Drained(t: Totals, answer: string, inline: string, field: string, tools: seq<ToolDelta>) {
    && answer == Chars(TS.Whole(TS.ThinkTags, t.content, false), false)
    && inline == Chars(TS.Whole(TS.ThinkTags, t.content, false), true)
    && field == t.field && tools == t.tools
  }

  lemma DrainedAll(t: Totals, p: Progress, pieces: seq<TS.Piece>, thinking: bool)
    requires Tracked(t, p) && TS.Complete(TS.ThinkTags, p.out + pieces, thinking, p.fed)
    ensures Drained(t, p.answer + PieceText(pieces, false), p.inline + PieceText(pieces, true), p.field, p.tools)
  {
    PieceTextJoin(p.out, pieces, false);
    PieceTextJoin(p.out, pieces, true);
    CharsOfPieces(p.out + pieces, false);
    CharsOfPieces(p.out + pieces, true);
  }

  method Drain<V>(s: TS.Splitter, r: Reader<V>, ghost t: Totals)
    requires s.Valid() && s.tags == TS.ThinkTags && r.Valid() && r.released == r.sawNative && Tracked(t, Done(s, r))
    modifies s, r`log, r`pendingText, r`answer, r`flushed, r`direct
    ensures r.Valid() && Drained(t, r.answer, Heard(r.log, InlineChannel), Heard(r.log, FieldChannel), r.tools)
    ensures r.sawNative ==> r.Taken() == old(r.Taken())
  {
    ghost var before := Done(s, r);
    var pieces := s.Feed("", true);
    assert before.fed + "" == before.fed;
    r.Deliver(pieces);
    DrainedAll(t, before, pieces, s.thinking);
  }

  lemma DeliveredAll<V>(g: Grammar<V>, toolsEnabled: bool, ds: seq<Delta>, log: seq<Out>, tools: seq<ToolDelta>,
                        textual: seq<TM.Call<V>>, p: Parts, calls: seq<TM.Call<V>>, answer: string, released: bool)
    requires Drained(Total(ds), answer, Heard(log, InlineChannel), Heard(log, FieldChannel), tools)
    requires Standing(toolsEnabled, released, answer, Heard(log, TextChannel), "", p)
    requires if p.parsed == "" then p.visible == "" && calls == [] else Reads(g, p.parsed, p.visible, calls)
    requires textual == if tools == [] then calls else []
    requires toolsEnabled ==> if tools == [] then p.flushed + p.parsed == answer else TakenAtNative(ds, p.flushed + p.parsed)
    ensures Delivered(g, toolsEnabled, ds, log, tools, textual, p, calls)
  {
    assert p.flushed + p.parsed + p.direct + "" == p.flushed + p.parsed + p.direct;
  }

  method Conclude<V>(r: Reader<V>, ghost ds: seq<Delta>) returns (ghost p: Parts)
    requires r.Valid() && r.ParsedRight() && r.released == r.sawNative && r.textual == [] && (r.sawNative <==> r.tools != [])
    requires Drained(Total(ds), r.answer, Heard(r.log, InlineChannel), Heard(r.log, FieldChannel), r.tools)
    requires r.toolsEnabled && r.sawNative ==> TakenAtNative(ds, r.Taken())
    modifies r
    ensures Delivered(r.g, r.toolsEnabled, ds, r.log, r.tools, r.textual, p, r.calls)
  {
    r.Finish();
    p := Parts(r.flushed, r.parsed, r.visible, r.direct);
    assert [] + r.calls == r.calls;
    DeliveredAll(r.g, r.toolsEnabled, ds, r.log, r.tools, r.textual, p, r.calls, r.answer, r.released);
  }

  /** The end of an accepted response: nothing is held any longer. */
  method AtEnd<V>(s: TS.Splitter, r: Reader<V>, ghost ds: seq<Delta>) returns (ghost p: Parts)
    requires Between(s, r, ds)
    modifies s, r
    ensures Delivered(r.g, r.toolsEnabled, ds, r.log, r.tools, r.textual, p, r.calls)
  {
    Drain(s, r, Total(ds));
    p := Conclude(r, ds);
  }

  /** Everything that holds between two lines. */
  ghost predicate Between<V>(s: TS.Splitter, r: Reader<V>, ds: seq<Delta>)
    reads s, r
  {
    && s.Valid() && s.tags == TS.ThinkTags && r.Valid() && r.ParsedRight() && r.released == r.sawNative && r.textual == []
    && Tracked(Total(ds), Done(s, r)) && (r.toolsEnabled && r.sawNative ==> TakenAtNative(ds, r.Taken()))
  }

  method NextDelta<V>(s: TS.Splitter, r: Reader<V>, d: Delta, ghost ds: seq<Delta>)
    requires Between(s, r, ds)
    modifies s, r
    ensures Between(s, r, ds + [d])
  {
    ghost var native, taken := r.sawNative, r.Taken();
    OnDelta(s, r, d, Total(ds));
    TotalMore(ds, d);
    if r.toolsEnabled && r.sawNative {
      if native {
        TakenMore(ds, d, taken);
      } else {
        TakenNow(ds, d, s.out, s.pending, s.thinking);
      }
    }
  }

  /** One line; `stop` says how the stream ended if this line ended it. */
  method ReadOne<V>(s: TS.Splitter, r: Reader<V>, line: Line, finished: bool, ghost ds: seq<Delta>)
    returns (stop: Option<Outcome>, finished': bool, ghost ds': seq<Delta>)
    requires Between(s, r, ds)
    modifies s, r
    ensures Between(s, r, ds')
    ensures ds' == ds + if HasDelta(line) then [line.decoded.choice.value] else []
    ensures finished' == (finished || FinishLine(line))
    ensures stop == if line.Done? then Some(Completed) else if !Bad(line) then None
      else if line.decoded.Invalid? then Some(ProtocolError) else Some(UpstreamError)
  {
    stop, finished', ds' := None, finished, ds;
    match line {
      case Ignored =>
      case Done => stop := Some(Completed);
      case Data(Invalid) => stop := Some(ProtocolError);
      case Data(Failed) => stop := Some(UpstreamError);
      case Data(Chunk(None)) =>
      case Data(Chunk(Some(d))) =>
        NextDelta(s, r, d, ds);
        ds' := ds + [d];
        finished' := finished || Finishes(d);
    }
  }

  predicate HasDelta(line: Line) { line.Data? && line.decoded.Chunk? && line.decoded.choice.Some? }

  /** Reads line `k`. */
  method ReadNext<V>(s: TS.Splitter, r: Reader<V>, lines: seq<Line>, k: nat, ghost readFails: bool, finished: bool, ghost ds: seq<Delta>)
    returns (stop: Option<Outcome>, finished': bool, ghost ds': seq<Delta>)
    requires Between(s, r, ds) && k < |lines| && Underway(lines, k, readFails, finished, ds)
    modifies s, r
    ensures Between(s, r, ds')
    ensures stop.None? ==> Underway(lines, k + 1, readFails, finished', ds')
    ensures stop.Some? ==> Stopped(lines, readFails, stop.value, ds')
  {
    UnderwayMore(lines, k, readFails, finished, ds);
    stop, finished', ds' := ReadOne(s, r, lines[k], finished, ds);
  }

  ghost predicate Stopped(lines: seq<Line>, readFails: bool, outcome: Outcome, ds: seq<Delta>) {
    outcome == Ending(lines, readFails, false) && (outcome.Completed? ==> ds == Deltas(lines))
  }

  /** Reads lines up to the one that ends the stream. */
  method ReadLines<V>(s: TS.Splitter, r: Reader<V>, lines: seq<Line>, readFails: bool) returns (outcome: Outcome, ghost ds: seq<Delta>)
    requires Between(s, r, [])
    modifies s, r
    ensures Between(s, r, ds) && Stopped(lines, readFails, outcome, ds)
  {
    ds := [];
    var k, finished := 0, false;
    assert lines[0..] == lines;
    while k < |lines|
      invariant 0 <= k <= |lines| && Underway(lines, k, readFails, finished, ds)
      invariant Between(s, r, ds)
    {
      var stop;
      stop, finished, ds := ReadNext(s, r, lines, k, readFails, finished, ds);
      if stop.Some? {
        outcome := stop.value;
        return;
      }
      k := k + 1;
    }
    assert lines[k..] == [] && ds + [] == ds;
    outcome := if readFails then ReadError else if finished then Completed else Truncated;
  }

  /** Reads a response to its end. It is accepted exactly as its lines say, and then
      everything in it has been delivered. */
  method ReadStream<V>(raw: seq<string>, readFails: bool, decode: string -> Decoded, toolsEnabled: bool, g: Grammar<V>)
    returns (outcome: Outcome, log: seq<Out>, tools: seq<ToolDelta>, textual: seq<TM.Call<V>>, ghost p: Parts, ghost calls: seq<TM.Call<V>>)
    requires RT.Exclusive(g.reader)
    ensures outcome == Ending(Lines(raw, decode), readFails, false)
    ensures outcome.Completed? ==> Delivered(g, toolsEnabled, Deltas(Lines(raw, decode)), log, tools, textual, p, calls)
  {
    var lines := Lines(raw, decode);
    var s := new TS.Splitter(TS.ThinkTags);
    var r := new Reader<V>(g, toolsEnabled);
    p := Parts("", "", "", "");
    ghost var ds;
    outcome, ds := ReadLines(s, r, lines, readFails);
    if outcome.Completed? {
      p := AtEnd(s, r, ds);
    }
    log, tools, textual, calls := r.log, r.tools, r.textual, r.calls;
  }

  /** The two forms Cline's models write tool calls in. */
  function ClineGrammar<V>(d: TM.Decoder<V>): Grammar<V> {
    Grammar((inner: string) => TM.Recognise(inner, d), RT.SegmentReader(d))
  }

  /** Reads a response with Cline's own forms. */
  method ReadCline<V>(raw: seq<string>, readFails: bool, decode: string -> Decoded, toolsEnabled: bool, d: TM.Decoder<V>)
    returns (outcome: Outcome, log: seq<Out>, tools: seq<ToolDelta>, textual: seq<TM.Call<V>>, ghost p: Parts, ghost calls: seq<TM.Call<V>>)
    ensures outcome == Ending(Lines(raw, decode), readFails, false)
    ensures outcome.Completed? ==>
      Delivered(ClineGrammar(d), toolsEnabled, Deltas(Lines(raw, decode)), log, tools, textual, p, calls)
  {
    RT.NamesAreNotCompact(d);
    outcome, log, tools, textual, p, calls := ReadStream(raw, readFails, decode, toolsEnabled, ClineGrammar(d));
  }

  lemma AbsentInPart(a: string, b: string, c: string, tag: string)
    requires RT.Absent(a + b + c, tag)
    ensures RT.Absent(b, tag)
  {
    forall i | 0 <= i
      ensures !At(b, i, tag)
    {
      assert !At(a + b + c, |a| + i, tag);
      assert i + |tag| <= |b| ==> (a + b + c)[|a| + i..|a| + i + |tag|] == b[i..i + |tag|];
    }
  }

  /** An answer without the tag reaches the client as it is, whether or not there are
      tools, wherever native calls begin and however often the buffer was flushed. */
  lemma UntaggedAnswerArrives<V>(g: Grammar<V>, toolsEnabled: bool, ds: seq<Delta>, log: seq<Out>, tools: seq<ToolDelta>,
                                 textual: seq<TM.Call<V>>, p: Parts, calls: seq<TM.Call<V>>)
    requires Delivered(g, toolsEnabled, ds, log, tools, textual, p, calls)
    requires RT.Absent(Answer(ds), TM.ToolCallMarkup.opening) || !toolsEnabled
    ensures Heard(log, TextChannel) == Answer(ds) && textual == []
  {
    if p.parsed != "" {
      AbsentInPart(p.flushed, p.parsed, p.direct, TM.ToolCallMarkup.opening);
      RT.NoTagNoCalls(TM.ToolCallMarkup, p.parsed, g.recognise, g.reader, p.visible, calls);
    }
  }

  /** Text is only ever taken out of an answer in exchange for calls. */
  lemma NothingLostWithoutCalls<V>(g: Grammar<V>, toolsEnabled: bool, ds: seq<Delta>, log: seq<Out>, tools: seq<ToolDelta>,
                                   textual: seq<TM.Call<V>>, p: Parts, calls: seq<TM.Call<V>>)
    requires Delivered(g, toolsEnabled, ds, log, tools, textual, p, calls)
    ensures Heard(log, TextChannel) == Answer(ds) || calls != []
    ensures tools == [] && Heard(log, TextChannel) != Answer(ds) ==> textual != []
  {
    if p.parsed != "" && calls == [] {
      RT.NoCallsUnchanged(TM.ToolCallMarkup, p.parsed, g.recognise, g.reader, p.visible, calls);
    }
  }

  lemma NotFlushed<V>(g: Grammar<V>, ds: seq<Delta>, log: seq<Out>, tools: seq<ToolDelta>, textual: seq<TM.Call<V>>, p: Parts,
                      calls: seq<TM.Call<V>>)
    requires Delivered(g, true, ds, log, tools, textual, p, calls) && tools == [] && Bytes(Answer(ds)) <= MaxBuffered
    ensures p.parsed == Answer(ds) && Heard(log, TextChannel) == p.visible && textual == calls
  {
    BytesJoin(p.flushed, p.parsed);
    var fixed := p.flushed + p.parsed;
    assert fixed + p.direct == fixed ==> p.direct == "";
    assert "" + p.parsed == p.parsed && "" + p.visible + "" == p.visible;
  }

  /** Without native calls an answer of up to 1 MiB is read for textual calls as a whole,
      however it was cut into deltas. */
  lemma ReadAsWhole<V>(g: Grammar<V>, ds: seq<Delta>, log: seq<Out>, tools: seq<ToolDelta>, textual: seq<TM.Call<V>>, p: Parts,
                       calls: seq<TM.Call<V>>)
    requires Delivered(g, true, ds, log, tools, textual, p, calls) && tools == [] && Bytes(Answer(ds)) <= MaxBuffered
    ensures Reads(g, Answer(ds), Heard(log, TextChannel), textual)
  {
    NotFlushed(g, ds, log, tools, textual, p, calls);
    if p.parsed == "" { RT.NothingInEmpty(TM.ToolCallMarkup, g.recognise, g.reader); }
  }

  /** So such an answer delivers what its text reads as. */
  lemma ReadingArrives<V>(g: Grammar<V>, ds: seq<Delta>, log: seq<Out>, textual: seq<TM.Call<V>>, p: Parts, calls: seq<TM.Call<V>>,
                          visible: string, meant: seq<TM.Call<V>>)
    requires Delivered(g, true, ds, log, [], textual, p, calls) && Bytes(Answer(ds)) <= MaxBuffered
    requires Reads(g, Answer(ds), visible, meant)
    ensures Heard(log, TextChannel) == visible && textual == meant
  {
    ReadAsWhole(g, ds, log, [], textual, p, calls);
    RT.OneReading(TM.ToolCallMarkup, Answer(ds), g.recognise, g.reader, Heard(log, TextChannel), textual, visible, meant);
  }

  /** So the text and the calls of such an answer do not depend on how it was cut. */
  lemma CuttingIsIrrelevant<V>(g: Grammar<V>, ds: seq<Delta>, log: seq<Out>, textual: seq<TM.Call<V>>, p: Parts, calls: seq<TM.Call<V>>,
                               ds': seq<Delta>, log': seq<Out>, textual': seq<TM.Call<V>>, p': Parts, calls': seq<TM.Call<V>>)
    requires Delivered(g, true, ds, log, [], textual, p, calls) && Delivered(g, true, ds', log', [], textual', p', calls')
    requires Content(ds) == Content(ds') && Bytes(Answer(ds)) <= MaxBuffered
    ensures Heard(log, TextChannel) == Heard(log', TextChannel) && textual == textual'
    ensures Heard(log, InlineChannel) == Heard(log', InlineChannel)
  {
    ReadAsWhole(g, ds, log, [], textual, p, calls);
    ReadAsWhole(g, ds', log', [], textual', p', calls');
    RT.OneReading(TM.ToolCallMarkup, Answer(ds), g.recognise, g.reader, Heard(log, TextChannel), textual, Heard(log', TextChannel), textual');
  }
}
