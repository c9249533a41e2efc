/** The text of a chunk determines its wire form, so what a chunk reads as is a matter of
    text. */
module ChunkDecoding {
  import opened Text
  import opened JsonText
  import opened JsonTokens
  import opened OpenAIChunk
  import opened ChunkLiterals
  import opened ChunkConstants
  import opened FrameDecoding

  // ---- literals ----

  /** A string literal: its closing quote is where the scan stops. */
  predicate IsLiteral(t: string) { |t| >= 2 && t[0] == '"' && Scan(t[1..], false) == |t| - 2 }

  lemma {:induction false} ScanMore(s: string, escaped: bool, more: string)
    requires Scan(s, escaped) >= 0
    ensures Scan(s + more, escaped) == Scan(s, escaped)
  {
    assert (s + more)[0] == s[0];
    if escaped || s[0] != '"' {
      ScanMore(s[1..], !escaped && s[0] == '\\', more);
      assert (s + more)[1..] == s[1..] + more;
    }
  }

  lemma LiteralsApart(a: string, rest: string, b: string, rest': string)
    requires IsLiteral(a) && IsLiteral(b) && a + rest == b + rest'
    ensures a == b && rest == rest'
  {
    ScanMore(a[1..], false, rest);
    ScanMore(b[1..], false, rest');
    assert (a + rest)[1..] == a[1..] + rest && (b + rest')[1..] == b[1..] + rest';
    assert |a| == |b|;
    TakePrefix(a, rest);
    TakePrefix(b, rest');
    assert (a + rest)[|a|..] == rest && (b + rest')[|b|..] == rest';
  }

  lemma QuoteIsLiteral(v: string)
    ensures IsLiteral(Quote(v))
  {
    ScanQuote(v, "");
    assert Quote(v) + "" == Quote(v);
  }

  lemma {:induction false} RawScan(s: string)
    requires Raw(s)
    ensures Scan(s + "\"", false) == |s|
  {
    if s != "" {
      RawScan(s[1..]);
      assert (s + "\"")[1..] == s[1..] + "\"";
    }
  }

  lemma IdIsLiteral(id: string)
    ensures IsLiteral(IdLiteral(id))
  {
    if Raw(id) {
      RawScan(id);
      assert ("\"" + (id + "\""))[1..] == id + "\"";
    } else {
      QuoteIsLiteral(id);
    }
  }

  // ---- peeling ----

  lemma Peel(a: string, x: string, y: string)
    requires a + x == a + y
    ensures x == y
  {
    assert (a + x)[|a|..] == x && (a + y)[|a|..] == y;
  }

  lemma PeelNumber(m: int, c: string, rest: string, n: int, rest': string)
    requires c != "" && !Digit(c[0]) && Decimal(m) + (c + rest) == Decimal(n) + (c + rest')
    ensures m == n && rest == rest'
  {
    NumbersApart(m, c + rest, n, c + rest');
    Peel(c, rest, rest');
  }

  predicate LiteralDelta(d: WireDelta) {
    match d
    case WireContent(text) => IsLiteral(text)
    case WireReasoning(text) => IsLiteral(text)
    case WireToolOpen(_, id, name) => IsLiteral(name) && (id.Some? ==> IsLiteral(id.value))
    case WireToolArguments(_, text) => IsLiteral(text)
    case _ => true
  }

  /** Every string of the wire form is a literal, and a chunk finishes exactly if it says
      nothing else. */
  predicate Literals(w: Wire) {
    && IsLiteral(w.id) && IsLiteral(w.model) && LiteralDelta(w.delta)
    && (w.finish.Some? <==> w.delta.WireNothing?) && (w.finish.Some? ==> IsLiteral(w.finish.value))
  }

  lemma Nested(a: string, b: string, c: string, d: string, e: string, f: string, g: string, rest: string)
    ensures a + b + c + d + e + f + g + rest == a + (b + (c + (d + (e + (f + (g + rest))))))
  {
  }

  lemma PrintNested(w: Wire)
    ensures Print(w) ==
      IdPrefix + (w.id + (ObjectCreated + (Decimal(w.created)
        + (ModelPrefix + (w.model + (ChoicesPrefix + RestText(w.delta, w.finish)))))))
  {
    PrintParts(w);
    Nested(IdPrefix, w.id, ObjectCreated, Decimal(w.created), ModelPrefix, w.model, ChoicesPrefix, RestText(w.delta, w.finish));
  }

  lemma EnvelopesApart(id: string, created: int, model: string, rest: string, id': string, created': int, model': string, rest': string)
    requires IsLiteral(id) && IsLiteral(id') && IsLiteral(model) && IsLiteral(model')
    requires IdPrefix + (id + (ObjectCreated + (Decimal(created) + (ModelPrefix + (model + (ChoicesPrefix + rest))))))
      == IdPrefix + (id' + (ObjectCreated + (Decimal(created') + (ModelPrefix + (model' + (ChoicesPrefix + rest'))))))
    ensures id == id' && created == created' && model == model' && rest == rest'
  {
    var x, x' := model + (ChoicesPrefix + rest), model' + (ChoicesPrefix + rest');
    var y, y' := Decimal(created) + (ModelPrefix + x), Decimal(created') + (ModelPrefix + x');
    Peel(IdPrefix, id + (ObjectCreated + y), id' + (ObjectCreated + y'));
    LiteralsApart(id, ObjectCreated + y, id', ObjectCreated + y');
    Peel(ObjectCreated, y, y');
    PeelNumber(created, ModelPrefix, x, created', x');
    LiteralsApart(model, ChoicesPrefix + rest, model', ChoicesPrefix + rest');
    Peel(ChoicesPrefix, rest, rest');
  }

  // ---- the shapes of a delta ----

  /** What a delta starts with tells the shapes apart, tool calls at first as one. */
  predicate StartsLike(s: string, d: WireDelta) {
    && |s| > 11
    && (match d
        case WireNothing => s[9] == '}'
        case WireRole => s[9] == '"' && s[10] == 'r' && s[11] == 'o'
        case WireReasoning(_) => s[9] == '"' && s[10] == 'r' && s[11] == 'e'
        case WireContent(_) => s[9] == '"' && s[10] == 'c'
        case _ => s[9] == '"' && s[10] == 't')
  }

  lemma Beginnings()
    ensures |TextDeltaPrefix| > 11 && TextDeltaPrefix[9] == '"' && TextDeltaPrefix[10] == 'c'
    ensures |ThinkingDeltaPrefix| > 11 && ThinkingDeltaPrefix[9] == '"' && ThinkingDeltaPrefix[10] == 'r' && ThinkingDeltaPrefix[11] == 'e'
    ensures |MessageStartSuffix| > 11 && MessageStartSuffix[9] == '"' && MessageStartSuffix[10] == 'r' && MessageStartSuffix[11] == 'o'
    ensures |ToolIndexPrefix| > 11 && ToolIndexPrefix[9] == '"' && ToolIndexPrefix[10] == 't'
    ensures |MessageDeltaPrefix| > 11 && MessageDeltaPrefix[9] == '}'
  {
  }

  /** The text after the prefix of a chunk, as the appenders write it. */
  function ToolTail(d: WireDelta): string
    requires d.WireToolOpen? || d.WireToolArguments?
  {
    match d
    case WireToolOpen(_, id, name) =>
      (if id.Some? then ToolStartPrefix + id.value else "") + (ToolStartNamePrefix + (name + ToolStartSuffix))
    case WireToolArguments(_, text) => ToolArgsPrefix + (text + ToolArgsSuffix)
  }

  lemma ToolRest(d: WireDelta)
    requires d.WireToolOpen? || d.WireToolArguments?
    ensures RestText(d, None) == ToolIndexPrefix + (Decimal(d.index) + ToolTail(d))
  {
    match d
    case WireToolArguments(index, text) =>
      ArgumentsRest(index, text);
      Right5(ToolIndexPrefix, Decimal(index), ToolArgsPrefix, text, ToolArgsSuffix);
    case WireToolOpen(index, Some(id), name) =>
      OpenRest(index, id, name);
      Right7(ToolIndexPrefix, Decimal(index), ToolStartPrefix, id, ToolStartNamePrefix, name, ToolStartSuffix);
    case WireToolOpen(index, None, name) =>
      OpenRestNoId(index, name);
      Right5(ToolIndexPrefix, Decimal(index), ToolStartNamePrefix, name, ToolStartSuffix);
      assert "" + (ToolStartNamePrefix + (name + ToolStartSuffix)) == ToolStartNamePrefix + (name + ToolStartSuffix);
  }

  lemma Right5(a: string, b: string, c: string, d: string, e: string)
    ensures a + b + c + d + e == a + (b + (c + (d + e)))
  {
  }

  lemma Right7(a: string, b: string, c: string, d: string, e: string, f: string, g: string)
    ensures a + b + c + d + e + f + g == a + (b + (c + d + (e + (f + g))))
  {
  }

  lemma RestStarts(d: WireDelta, finish: Option<string>)
    requires finish.Some? <==> d.WireNothing?
    ensures StartsLike(RestText(d, finish), d)
  {
    Beginnings();
    match d
    case WireRole => RoleRest();
    case WireContent(text) => ContentRest(text);
    case WireReasoning(text) => ReasoningRest(text);
    case WireNothing => StopRest(finish.value);
    case _ => ToolRest(d);
  }

  lemma SameAround(before: string, v: string, after: string, v': string)
    requires before + v + after == before + v' + after && IsLiteral(v) && IsLiteral(v')
    ensures v == v'
  {
    assert before + v + after == before + (v + after) && before + v' + after == before + (v' + after);
    Peel(before, v + after, v' + after);
    LiteralsApart(v, after, v', after);
  }

  lemma TailBeginnings()
    ensures |ToolStartPrefix| > 2 && ToolStartPrefix[0] == ',' && ToolStartPrefix[2] == 'i'
    ensures |ToolStartNamePrefix| > 2 && ToolStartNamePrefix[0] == ',' && ToolStartNamePrefix[2] == 't'
    ensures |ToolArgsPrefix| > 2 && ToolArgsPrefix[0] == ',' && ToolArgsPrefix[2] == 'f'
  {
  }

  lemma TailStarts(d: WireDelta)
    requires d.WireToolOpen? || d.WireToolArguments?
    ensures var s := ToolTail(d);
      && |s| > 2 && s[0] == ','
      && s[2] == if d.WireToolArguments? then 'f' else if d.id.Some? then 'i' else 't'
  {
    TailBeginnings();
  }

  lemma NamedTail(name: string, name': string)
    requires ToolStartNamePrefix + (name + ToolStartSuffix) == ToolStartNamePrefix + (name' + ToolStartSuffix)
    requires IsLiteral(name) && IsLiteral(name')
    ensures name == name'
  {
    Peel(ToolStartNamePrefix, name + ToolStartSuffix, name' + ToolStartSuffix);
    LiteralsApart(name, ToolStartSuffix, name', ToolStartSuffix);
  }

  lemma LiteralAfter(before: string, id: string, rest: string, id': string, rest': string)
    requires IsLiteral(id) && IsLiteral(id') && before + id + rest == before + id' + rest'
    ensures id == id' && rest == rest'
  {
    assert before + id + rest == before + (id + rest) && before + id' + rest' == before + (id' + rest');
    Peel(before, id + rest, id' + rest');
    LiteralsApart(id, rest, id', rest');
  }

  lemma IdentifiedTail(id: string, name: string, id': string, name': string)
    requires IsLiteral(id) && IsLiteral(id') && IsLiteral(name) && IsLiteral(name')
    requires ToolStartPrefix + id + (ToolStartNamePrefix + (name + ToolStartSuffix))
      == ToolStartPrefix + id' + (ToolStartNamePrefix + (name' + ToolStartSuffix))
    ensures id == id' && name == name'
  {
    LiteralAfter(ToolStartPrefix, id, ToolStartNamePrefix + (name + ToolStartSuffix), id', ToolStartNamePrefix + (name' + ToolStartSuffix));
    NamedTail(name, name');
  }

  lemma ArgumentsTail(text: string, text': string)
    requires ToolArgsPrefix + (text + ToolArgsSuffix) == ToolArgsPrefix + (text' + ToolArgsSuffix)
    requires IsLiteral(text) && IsLiteral(text')
    ensures text == text'
  {
    Peel(ToolArgsPrefix, text + ToolArgsSuffix, text' + ToolArgsSuffix);
    LiteralsApart(text, ToolArgsSuffix, text', ToolArgsSuffix);
  }

  lemma IndexesApart(d: WireDelta, d': WireDelta)
    requires (d.WireToolOpen? || d.WireToolArguments?) && (d'.WireToolOpen? || d'.WireToolArguments?)
    requires RestText(d, None) == RestText(d', None)
    ensures d.index == d'.index && ToolTail(d) == ToolTail(d')
  {
    ToolRest(d);
    ToolRest(d');
    Peel(ToolIndexPrefix, Decimal(d.index) + ToolTail(d), Decimal(d'.index) + ToolTail(d'));
    TailStarts(d);
    TailStarts(d');
    NumbersApart(d.index, ToolTail(d), d'.index, ToolTail(d'));
  }

  lemma NoIdTail(index: int, name: string)
    ensures ToolTail(WireToolOpen(index, None, name)) == ToolStartNamePrefix + (name + ToolStartSuffix)
  {
    assert "" + (ToolStartNamePrefix + (name + ToolStartSuffix)) == ToolStartNamePrefix + (name + ToolStartSuffix);
  }

  lemma TailsApart(d: WireDelta, d': WireDelta)
    requires (d.WireToolOpen? || d.WireToolArguments?) && (d'.WireToolOpen? || d'.WireToolArguments?)
    requires LiteralDelta(d) && LiteralDelta(d') && d.index == d'.index && ToolTail(d) == ToolTail(d')
    ensures d == d'
  {
    TailStarts(d);
    TailStarts(d');
    match d
    case WireToolArguments(_, text) => ArgumentsTail(text, d'.text);
    case WireToolOpen(_, Some(id), name) => IdentifiedTail(id, name, d'.id.value, d'.name);
    case WireToolOpen(index, None, name) =>
      NoIdTail(index, name);
      NoIdTail(index, d'.name);
      NamedTail(name, d'.name);
  }

  lemma ToolsApart(d: WireDelta, d': WireDelta)
    requires (d.WireToolOpen? || d.WireToolArguments?) && (d'.WireToolOpen? || d'.WireToolArguments?)
    requires LiteralDelta(d) && LiteralDelta(d') && RestText(d, None) == RestText(d', None)
    ensures d == d'
  {
    IndexesApart(d, d');
    TailsApart(d, d');
  }

  lemma RestsApart(w: Wire, w': Wire)
    requires Literals(w) && Literals(w') && RestText(w.delta, w.finish) == RestText(w'.delta, w'.finish)
    ensures w.delta == w'.delta && w.finish == w'.finish
  {
    RestStarts(w.delta, w.finish);
    RestStarts(w'.delta, w'.finish);
    match w.delta
    case WireRole =>
    case WireContent(text) =>
      ContentRest(text);
      ContentRest(w'.delta.text);
      SameAround(TextDeltaPrefix, text, ContentDeltaSuffix, w'.delta.text);
    case WireReasoning(text) =>
      ReasoningRest(text);
      ReasoningRest(w'.delta.text);
      SameAround(ThinkingDeltaPrefix, text, ContentDeltaSuffix, w'.delta.text);
    case WireNothing =>
      StopRest(w.finish.value);
      StopRest(w'.finish.value);
      SameAround(MessageDeltaPrefix, w.finish.value, MessageDeltaSuffix, w'.finish.value);
    case _ => ToolsApart(w.delta, w'.delta);
  }

  /** Two wire forms that print the same are the same. */
  lemma PrintDetermines(w: Wire, w': Wire)
    requires Literals(w) && Literals(w') && Print(w) == Print(w')
    ensures w == w'
  {
    PrintNested(w);
    PrintNested(w');
    EnvelopesApart(w.id, w.created, w.model, RestText(w.delta, w.finish), w'.id, w'.created, w'.model, RestText(w'.delta, w'.finish));
    RestsApart(w, w');
  }

  lemma WriteLiteralDelta(d: Delta)
    ensures LiteralDelta(WriteDelta(d))
  {
    match d
    case Content(text) => QuoteIsLiteral(text);
    case Reasoning(text) => QuoteIsLiteral(text);
    case ToolOpen(_, id, name) =>
      QuoteIsLiteral(id);
      QuoteIsLiteral(name);
    case ToolArguments(_, text) => QuoteIsLiteral(text);
    case _ =>
  }

  /** What the encoder writes is made of literals. */
  lemma WriteLiterals(c: Chunk)
    requires c.finish.Some? <==> c.delta.Nothing?
    ensures Literals(Write(c))
  {
    QuoteIsLiteral(c.id);
    QuoteIsLiteral(c.model);
    if c.finish.Some? { QuoteIsLiteral(c.finish.value); }
    WriteLiteralDelta(c.delta);
  }

  /** A text is the JSON of this chunk: it prints a wire form that reads as the chunk. */
  ghost predicate TextReads(s: string, c: Chunk) {
    exists w :: Literals(w) && s == Print(w) && ReadsAs(w, c)
  }

  lemma SameReading(w: Wire, c: Chunk, w': Wire, c': Chunk)
    requires Literals(w) && Literals(w') && Print(w) == Print(w') && ReadsAs(w, c) && ReadsAs(w', c')
    ensures c == c'
  {
    PrintDetermines(w, w');
    OneReading(w, c, c');
  }

  /** A text is the JSON of one chunk only. */
  lemma OneChunk(s: string, c: Chunk, c': Chunk)
    requires TextReads(s, c) && TextReads(s, c')
    ensures c == c'
  {
    forall w, w' | Literals(w) && Literals(w') && Print(w) == s && Print(w') == s && ReadsAs(w, c) && ReadsAs(w', c')
      ensures c == c'
    {
      SameReading(w, c, w', c');
    }
  }

  /** A printed wire form is the JSON of the chunks it reads as, and of no other. */
  lemma TextReadsExactly(w: Wire, c: Chunk)
    requires Literals(w)
    ensures TextReads(Print(w), c) <==> ReadsAs(w, c)
  {
    forall w' | Literals(w') && Print(w) == Print(w') && ReadsAs(w', c)
      ensures ReadsAs(w, c)
    {
      PrintDetermines(w, w');
    }
  }

  /** What the encoder prints is the JSON of the chunk. */
  lemma PrintedReads(c: Chunk)
    requires c.finish.Some? <==> c.delta.Nothing?
    ensures TextReads(Print(Write(c)), c)
  {
    WriteReads(c);
    WriteLiterals(c);
  }
}
