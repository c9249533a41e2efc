/** The text of a frame determines the frame: reading it back is a matter of text. */
module FrameDecoding {
  import opened Text
  import opened JsonText
  import opened JsonTokens
  import opened OpenAIChunk
  import opened FrameSearch

  // ---- numbers ----

  predicate Digit(c: char) { '0' <= c <= '9' }

  lemma {:induction false} DigitsDiffer(m: nat, n: nat)
    requires Digits(m) == Digits(n)
    ensures m == n
  {
    if m >= 10 && n >= 10 {
      LastDigit(m);
      LastDigit(n);
      DigitsDiffer(m / 10, n / 10);
    } else {
      DigitsLong(m);
      DigitsLong(n);
    }
  }

  lemma LastDigit(n: nat)
    requires n >= 10
    ensures |Digits(n)| > 1 && Digits(n)[..|Digits(n)| - 1] == Digits(n / 10)
    ensures Digits(n)[|Digits(n)| - 1] as int == '0' as int + n % 10
  {
  }

  lemma DigitsLong(n: nat)
    ensures n >= 10 <==> |Digits(n)| > 1
  {
    if n >= 10 { LastDigit(n); }
  }

  lemma DecimalsDiffer(m: int, n: int)
    requires Decimal(m) == Decimal(n)
    ensures m == n
  {
    assert m < 0 ==> Decimal(m)[0] == '-' && Decimal(m)[1..] == Digits(-m);
    assert n < 0 ==> Decimal(n)[0] == '-' && Decimal(n)[1..] == Digits(-n);
    if m < 0 && n < 0 { DigitsDiffer(-m, -n); } else if m >= 0 && n >= 0 { DigitsDiffer(m, n); }
  }

  predicate EndsNumber(rest: string) { rest == "" || !Digit(rest[0]) }

  lemma DecimalChars(n: int, i: nat)
    requires i < |Decimal(n)|
    ensures i > 0 ==> Digit(Decimal(n)[i])
  {
  }

  lemma NoLonger(m: int, rest: string, n: int, rest': string)
    requires Decimal(m) + rest == Decimal(n) + rest' && EndsNumber(rest)
    ensures |Decimal(n)| <= |Decimal(m)|
  {
    var a, b := Decimal(m), Decimal(n);
    var s := a + rest;
    assert forall i :: 0 <= i < |b| ==> s[i] == b[i];
    assert rest != "" ==> s[|a|] == rest[0];
    if |a| < |b| { DecimalChars(n, |a|); }
  }

  /** A number ends where its digits do. */
  lemma NumbersApart(m: int, rest: string, n: int, rest': string)
    requires Decimal(m) + rest == Decimal(n) + rest' && EndsNumber(rest) && EndsNumber(rest')
    ensures m == n && rest == rest'
  {
    NoLonger(m, rest, n, rest');
    NoLonger(n, rest', m, rest);
    var a, b := Decimal(m), Decimal(n);
    TakePrefix(a, rest);
    TakePrefix(b, rest');
    assert (a + rest)[|a|..] == rest && (b + rest')[|b|..] == rest';
    DecimalsDiffer(m, n);
  }

  // ---- members ----

  lemma TextAfterKey(ts: seq<Token>, k: string, j: nat)
    requires AllValid(ts) && Word(k) && j < |ts| && ts[j] == Key(k) && Keyless(ts, k, j)
    ensures var at := Index(RenderAll(ts), Marker(k));
      0 <= at && at + |Marker(k)| <= |RenderAll(ts)| && RenderAll(ts)[at + |Marker(k)|..] == RenderAll(ts[j + 1..])
  {
    MarkerFound(ts, k, j);
    TextFrom(ts, j);
    assert ts[j..][1..] == ts[j + 1..];
    DropPrefix(RenderAll(ts), Offset(ts, j), Marker(k), RenderAll(ts[j + 1..]));
  }

  /** What comes after the first key `k`. */
  ghost predicate After(ts: seq<Token>, k: string, t: Token, rest: string) {
    exists j :: 0 <= j && j + 1 < |ts| && ts[j] == Key(k) && Keyless(ts, k, j) && ts[j + 1] == t && rest == RenderAll(ts[j + 2..])
  }

  ghost predicate Splits(s: string, at: int, marker: string, rest: string) {
    0 <= at && at + |marker| <= |s| && s[at + |marker|..] == rest
  }

  lemma AfterText(ts: seq<Token>, k: string, t: Token, rest: string) returns (at: int)
    requires AllValid(ts) && Word(k) && After(ts, k, t, rest)
    ensures at == Index(RenderAll(ts), Marker(k)) && Splits(RenderAll(ts), at, Marker(k), Render(t) + rest)
  {
    var j :| 0 <= j && j + 1 < |ts| && ts[j] == Key(k) && Keyless(ts, k, j) && ts[j + 1] == t && rest == RenderAll(ts[j + 2..]);
    TextAfterKey(ts, k, j);
    assert ts[j + 1..][1..] == ts[j + 2..];
    at := Index(RenderAll(ts), Marker(k));
  }

  lemma SplitsOnce(s: string, at: int, marker: string, rest: string, rest': string)
    requires Splits(s, at, marker, rest) && Splits(s, at, marker, rest')
    ensures rest == rest'
  {
  }

  /** Equal texts have the same after their first key `k`. */
  lemma SameAfter(ts: seq<Token>, ts': seq<Token>, k: string, t: Token, rest: string, t': Token, rest': string)
    requires AllValid(ts) && AllValid(ts') && Word(k) && RenderAll(ts) == RenderAll(ts')
    requires After(ts, k, t, rest) && After(ts', k, t', rest')
    ensures Render(t) + rest == Render(t') + rest'
  {
    var at := AfterText(ts, k, t, rest);
    var at' := AfterText(ts', k, t', rest');
    SplitsOnce(RenderAll(ts), at, Marker(k), Render(t) + rest, Render(t') + rest');
  }

  /** So string members of equal texts are equal, ... */
  lemma SameString(ts: seq<Token>, ts': seq<Token>, k: string, v: string, rest: string, v': string, rest': string)
    requires AllValid(ts) && AllValid(ts') && Word(k) && RenderAll(ts) == RenderAll(ts')
    requires After(ts, k, Str(v), rest) && After(ts', k, Str(v'), rest')
    ensures v == v'
  {
    SameAfter(ts, ts', k, Str(v), rest, Str(v'), rest');
    QuotesApart(v, rest, v', rest');
  }

  /** ... and number members as well. */
  lemma SameNumber(ts: seq<Token>, ts': seq<Token>, k: string, n: int, rest: string, n': int, rest': string)
    requires AllValid(ts) && AllValid(ts') && Word(k) && RenderAll(ts) == RenderAll(ts')
    requires After(ts, k, Num(n), rest) && After(ts', k, Num(n'), rest')
    requires EndsNumber(rest) && EndsNumber(rest')
    ensures n == n'
  {
    SameAfter(ts, ts', k, Num(n), rest, Num(n'), rest');
    NumbersApart(n, rest, n', rest');
  }

  ghost predicate StringMember(ts: seq<Token>, k: string, v: string) {
    exists rest :: After(ts, k, Str(v), rest)
  }

  ghost predicate NumberMember(ts: seq<Token>, k: string, n: int) {
    exists rest :: After(ts, k, Num(n), rest) && EndsNumber(rest)
  }

  lemma OneString(ts: seq<Token>, ts': seq<Token>, k: string, v: string, v': string)
    requires AllValid(ts) && AllValid(ts') && Word(k) && RenderAll(ts) == RenderAll(ts')
    requires StringMember(ts, k, v) && StringMember(ts', k, v')
    ensures v == v'
  {
    var rest :| After(ts, k, Str(v), rest);
    var rest' :| After(ts', k, Str(v'), rest');
    SameString(ts, ts', k, v, rest, v', rest');
  }

  lemma OneNumber(ts: seq<Token>, ts': seq<Token>, k: string, n: int, n': int)
    requires AllValid(ts) && AllValid(ts') && Word(k) && RenderAll(ts) == RenderAll(ts')
    requires NumberMember(ts, k, n) && NumberMember(ts', k, n')
    ensures n == n'
  {
    var rest :| After(ts, k, Num(n), rest) && EndsNumber(rest);
    var rest' :| After(ts', k, Num(n'), rest') && EndsNumber(rest');
    SameNumber(ts, ts', k, n, rest, n', rest');
  }

  lemma StringAt(ts: seq<Token>, k: string, j: nat, v: string)
    requires j + 1 < |ts| && ts[j] == Key(k) && Keyless(ts, k, j) && ts[j + 1] == Str(v)
    ensures StringMember(ts, k, v)
  {
    assert After(ts, k, Str(v), RenderAll(ts[j + 2..]));
  }

  lemma NumberAt(ts: seq<Token>, k: string, j: nat, n: int)
    requires j + 2 < |ts| && ts[j] == Key(k) && Keyless(ts, k, j) && ts[j + 1] == Num(n)
    requires ts[j + 2].Punct? && Valid(ts[j + 2]) && ts[j + 2].text != ""
    ensures NumberMember(ts, k, n)
  {
    var rest := RenderAll(ts[j + 2..]);
    assert ts[j + 2..][0] == ts[j + 2] && PunctChar(ts[j + 2].text[0]);
    assert rest[0] == ts[j + 2].text[0];
    assert After(ts, k, Num(n), rest);
  }

  // ---- frame by frame ----

  lemma AboutHead(event: string, index: int, part: string, kind: string, rest: seq<Token>)
    requires Word(part) && AllValid(rest)
    ensures AllValid(About(event, index, part, kind, rest))
    ensures StringMember(About(event, index, part, kind, rest), "type", event)
    ensures NumberMember(About(event, index, part, kind, rest), "index", index)
  {
    var ts := About(event, index, part, kind, rest);
    AboutValid(event, index, part, kind, rest);
    StringAt(ts, "type", 1, event);
    NumberAt(ts, "index", 4, index);
  }

  lemma AboutMember(event: string, index: int, part: string, kind: string, rest: seq<Token>, k: string, j: nat, v: string)
    requires k != "type" && k != "index" && k != part
    requires j + 1 < |rest| && rest[j] == Key(k) && rest[j + 1] == Str(v) && Keyless(rest, k, j)
    ensures StringMember(About(event, index, part, kind, rest), k, v)
  {
    var ts := About(event, index, part, kind, rest);
    assert forall i :: 12 <= i < 12 + j ==> ts[i] == rest[i - 12];
    StringAt(ts, k, 12 + j, v);
  }

  /** Frames about blocks with the same text are about the same kind of block. */
  lemma SameKind(event: string, index: int, part: string, kind: string, rest: seq<Token>, index': int, kind': string, rest': seq<Token>)
    requires Word(part) && part != "type" && AllValid(rest) && Key("type") !in rest && kind != event
    requires AllValid(rest') && Key("type") !in rest' && kind' != event
    requires RenderAll(About(event, index, part, kind, rest)) == RenderAll(About(event, index', part, kind', rest'))
    ensures kind == kind' && index == index'
  {
    TypeFound(event, index, part, kind, rest, kind);
    TypeFound(event, index', part, kind', rest', kind);
    AboutHead(event, index, part, kind, rest);
    AboutHead(event, index', part, kind', rest');
    Words();
    OneNumber(About(event, index, part, kind, rest), About(event, index', part, kind', rest'), "index", index, index');
  }

  /** The name of an event, as its frame gives it. */
  function EventLiteral(e: Event): string {
    match e
    case MessageStart(_, _, _, _) => "message_start"
    case ToolStart(_, _, _) => "content_block_start"
    case TextStart(_, _) => "content_block_start"
    case ThinkingStart(_, _) => "content_block_start"
    case ArgumentsDelta(_, _) => "content_block_delta"
    case TextDelta(_, _) => "content_block_delta"
    case ThinkingDelta(_, _) => "content_block_delta"
    case BlockStop(_) => "content_block_stop"
    case MessageDelta(_, _) => "message_delta"
    case MessageStop => "message_stop"
  }

  /** The part of a frame about a block that is its own. */
  function Own(e: Event): (r: seq<Token>)
    ensures AllValid(r) && Key("type") !in r
  {
    Words();
    match e
    case ToolStart(_, id, name) => ToolPart(id, name)
    case TextStart(_, text) => DeltaPart("text", text)
    case ThinkingStart(_, signature) =>
      [Key("thinking"), Str(""), Punct(","), Key("signature"), Str(signature), Punct("}}")]
    case ArgumentsDelta(_, json) => DeltaPart("partial_json", json)
    case TextDelta(_, text) => DeltaPart("text", text)
    case ThinkingDelta(_, thinking) => DeltaPart("thinking", thinking)
    case _ => []
  }

  function KindOf(e: Event): string {
    match e
    case ToolStart(_, _, _) => "tool_use"
    case TextStart(_, _) => "text"
    case ThinkingStart(_, _) => "thinking"
    case ArgumentsDelta(_, _) => "input_json_delta"
    case TextDelta(_, _) => "text_delta"
    case ThinkingDelta(_, _) => "thinking_delta"
    case _ => ""
  }

  predicate IsStart(e: Event) { e.ToolStart? || e.TextStart? || e.ThinkingStart? }

  predicate IsDelta(e: Event) { e.ArgumentsDelta? || e.TextDelta? || e.ThinkingDelta? }

  lemma StartFrame(e: Event)
    requires IsStart(e)
    ensures Frame(e) == BlockStart(e.index, KindOf(e), Own(e)) && KindOf(e) != "content_block_start"
  {
  }

  lemma DeltaFrame(e: Event)
    requires IsDelta(e)
    ensures Frame(e) == BlockDelta(e.index, KindOf(e), Own(e)) && KindOf(e) != "content_block_delta"
  {
  }

  lemma BlockHead(e: Event)
    requires IsStart(e) || IsDelta(e)
    ensures AllValid(Frame(e)) && StringMember(Frame(e), "type", EventLiteral(e))
  {
    Words();
    if IsStart(e) {
      StartFrame(e);
      AboutHead("content_block_start", e.index, "content_block", KindOf(e), Own(e));
    } else {
      DeltaFrame(e);
      AboutHead("content_block_delta", e.index, "delta", KindOf(e), Own(e));
    }
  }

  lemma MessageStartHead(e: Event)
    requires e.MessageStart?
    ensures AllValid(Frame(e)) && StringMember(Frame(e), "type", "message_start")
  {
    MessageStartValid(e);
    StringAt(Frame(e), "type", 1, "message_start");
  }

  lemma MessageDeltaHead(e: Event)
    requires e.MessageDelta?
    ensures AllValid(Frame(e)) && StringMember(Frame(e), "type", "message_delta")
  {
    Words();
    StringAt(Frame(e), "type", 1, "message_delta");
  }

  lemma StopHead(e: Event)
    requires e.BlockStop? || e.MessageStop?
    ensures AllValid(Frame(e)) && StringMember(Frame(e), "type", EventLiteral(e))
  {
    Words();
    if e.BlockStop? {
      StringAt(Frame(e), "type", 1, "content_block_stop");
    } else {
      StringAt(Frame(e), "type", 1, "message_stop");
    }
  }

  lemma FrameHead(e: Event)
    ensures AllValid(Frame(e)) && StringMember(Frame(e), "type", EventLiteral(e))
  {
    match e
    case MessageStart(_, _, _, _) => MessageStartHead(e);
    case MessageDelta(_, _) => MessageDeltaHead(e);
    case BlockStop(_) => StopHead(e);
    case MessageStop => StopHead(e);
    case _ => BlockHead(e);
  }

  lemma SameStart(e: Event, e': Event)
    requires IsStart(e) && IsStart(e') && RenderAll(Frame(e)) == RenderAll(Frame(e'))
    ensures e.index == e'.index && KindOf(e) == KindOf(e')
  {
    Words();
    StartFrame(e);
    StartFrame(e');
    SameKind("content_block_start", e.index, "content_block", KindOf(e), Own(e), e'.index, KindOf(e'), Own(e'));
  }

  lemma SameDelta(e: Event, e': Event)
    requires IsDelta(e) && IsDelta(e') && RenderAll(Frame(e)) == RenderAll(Frame(e'))
    ensures e.index == e'.index && KindOf(e) == KindOf(e')
  {
    Words();
    DeltaFrame(e);
    DeltaFrame(e');
    SameKind("content_block_delta", e.index, "delta", KindOf(e), Own(e), e'.index, KindOf(e'), Own(e'));
  }

  // ---- string members of each kind ----

  lemma ToolMembers(e: Event)
    requires e.ToolStart?
    ensures StringMember(Frame(e), "id", e.id) && StringMember(Frame(e), "name", e.name)
  {
    AboutMember("content_block_start", e.index, "content_block", "tool_use", Own(e), "id", 0, e.id);
    AboutMember("content_block_start", e.index, "content_block", "tool_use", Own(e), "name", 3, e.name);
  }

  /** The key of the one string that a frame of the other kinds carries, and that string. */
  function TextKey(e: Event): string {
    match e
    case TextStart(_, _) => "text"
    case ThinkingStart(_, _) => "signature"
    case ArgumentsDelta(_, _) => "partial_json"
    case TextDelta(_, _) => "text"
    case _ => "thinking"
  }

  function Carried(e: Event): string {
    match e
    case TextStart(_, text) => text
    case ThinkingStart(_, signature) => signature
    case ArgumentsDelta(_, json) => json
    case TextDelta(_, text) => text
    case ThinkingDelta(_, thinking) => thinking
    case _ => ""
  }

  lemma StartCarries(e: Event)
    requires e.TextStart? || e.ThinkingStart?
    ensures StringMember(Frame(e), TextKey(e), Carried(e))
  {
    StartFrame(e);
    AboutMember("content_block_start", e.index, "content_block", KindOf(e), Own(e), TextKey(e), if e.TextStart? then 0 else 3, Carried(e));
  }

  lemma DeltaCarries(e: Event)
    requires IsDelta(e)
    ensures StringMember(Frame(e), TextKey(e), Carried(e))
  {
    DeltaFrame(e);
    AboutMember("content_block_delta", e.index, "delta", KindOf(e), Own(e), TextKey(e), 0, Carried(e));
  }

  lemma MessageStartId(e: Event)
    requires e.MessageStart?
    ensures StringMember(Frame(e), "id", e.id)
  {
    StringAt(Frame(e), "id", 6, e.id);
  }

  lemma MessageStartModel(e: Event)
    requires e.MessageStart?
    ensures StringMember(Frame(e), "model", e.model)
  {
    StringAt(Frame(e), "model", 17, e.model);
  }

  lemma MessageStartInput(e: Event)
    requires e.MessageStart?
    ensures NumberMember(Frame(e), "input_tokens", e.input)
  {
    NumberAt(Frame(e), "input_tokens", 22, e.input);
  }

  lemma MessageStartOutput(e: Event)
    requires e.MessageStart?
    ensures NumberMember(Frame(e), "output_tokens", e.output)
  {
    NumberAt(Frame(e), "output_tokens", 25, e.output);
  }

  lemma MessageDeltaMembers(e: Event)
    requires e.MessageDelta?
    ensures StringMember(Frame(e), "stop_reason", e.stopReason) && NumberMember(Frame(e), "output_tokens", e.output)
  {
    StringAt(Frame(e), "stop_reason", 6, e.stopReason);
    NumberAt(Frame(e), "output_tokens", 11, e.output);
  }

  lemma BlockStopMembers(e: Event)
    requires e.BlockStop?
    ensures NumberMember(Frame(e), "index", e.index)
  {
    NumberAt(Frame(e), "index", 4, e.index);
  }

  // ---- the whole frame ----

  lemma SameMessageStart(e: Event, e': Event)
    requires e.MessageStart? && e'.MessageStart? && RenderAll(Frame(e)) == RenderAll(Frame(e'))
    ensures e == e'
  {
    Words();
    MessageStartHead(e);
    MessageStartHead(e');
    MessageStartId(e);
    MessageStartId(e');
    MessageStartModel(e);
    MessageStartModel(e');
    MessageStartInput(e);
    MessageStartInput(e');
    MessageStartOutput(e);
    MessageStartOutput(e');
    OneString(Frame(e), Frame(e'), "id", e.id, e'.id);
    OneString(Frame(e), Frame(e'), "model", e.model, e'.model);
    OneNumber(Frame(e), Frame(e'), "input_tokens", e.input, e'.input);
    OneNumber(Frame(e), Frame(e'), "output_tokens", e.output, e'.output);
  }

  lemma SameMessageDelta(e: Event, e': Event)
    requires e.MessageDelta? && e'.MessageDelta? && RenderAll(Frame(e)) == RenderAll(Frame(e'))
    ensures e == e'
  {
    Words();
    MessageDeltaHead(e);
    MessageDeltaHead(e');
    MessageDeltaMembers(e);
    MessageDeltaMembers(e');
    OneString(Frame(e), Frame(e'), "stop_reason", e.stopReason, e'.stopReason);
    OneNumber(Frame(e), Frame(e'), "output_tokens", e.output, e'.output);
  }

  lemma SameBlockStop(e: Event, e': Event)
    requires e.BlockStop? && e'.BlockStop? && RenderAll(Frame(e)) == RenderAll(Frame(e'))
    ensures e == e'
  {
    Words();
    StopHead(e);
    StopHead(e');
    BlockStopMembers(e);
    BlockStopMembers(e');
    OneNumber(Frame(e), Frame(e'), "index", e.index, e'.index);
  }

  lemma SameToolStart(e: Event, e': Event)
    requires e.ToolStart? && e'.ToolStart? && RenderAll(Frame(e)) == RenderAll(Frame(e')) && e.index == e'.index
    ensures e == e'
  {
    Words();
    BlockHead(e);
    BlockHead(e');
    ToolMembers(e);
    ToolMembers(e');
    OneString(Frame(e), Frame(e'), "id", e.id, e'.id);
    OneString(Frame(e), Frame(e'), "name", e.name, e'.name);
  }

  lemma KeyIsWord(e: Event)
    ensures Word(TextKey(e))
  {
    Words();
  }

  lemma Carries(e: Event)
    requires e.TextStart? || e.ThinkingStart? || IsDelta(e)
    ensures StringMember(Frame(e), TextKey(e), Carried(e))
  {
    if IsDelta(e) { DeltaCarries(e); } else { StartCarries(e); }
  }

  lemma SameCarried(e: Event, e': Event)
    requires (e.TextStart? && e'.TextStart?) || (e.ThinkingStart? && e'.ThinkingStart?) || (IsDelta(e) && KindOf(e) == KindOf(e') && IsDelta(e'))
    requires RenderAll(Frame(e)) == RenderAll(Frame(e')) && e.index == e'.index && TextKey(e) == TextKey(e')
    ensures Carried(e) == Carried(e')
  {
    KeyIsWord(e);
    BlockHead(e);
    BlockHead(e');
    Carries(e);
    Carries(e');
    OneString(Frame(e), Frame(e'), TextKey(e), Carried(e), Carried(e'));
  }

  lemma SameBlock(e: Event, e': Event)
    requires (IsStart(e) && IsStart(e')) || (IsDelta(e) && IsDelta(e'))
    requires RenderAll(Frame(e)) == RenderAll(Frame(e'))
    ensures e == e'
  {
    if IsStart(e) { SameStart(e, e'); } else { SameDelta(e, e'); }
    if e.ToolStart? { SameToolStart(e, e'); } else { SameCarried(e, e'); }
  }

  /** Two events whose frames read the same are the same event. */
  lemma FrameDetermines(e: Event, e': Event)
    requires RenderAll(Frame(e)) == RenderAll(Frame(e'))
    ensures e == e'
  {
    FrameHead(e);
    FrameHead(e');
    Words();
    OneString(Frame(e), Frame(e'), "type", EventLiteral(e), EventLiteral(e'));
    match e
    case MessageStart(_, _, _, _) => SameMessageStart(e, e');
    case MessageDelta(_, _) => SameMessageDelta(e, e');
    case BlockStop(_) => SameBlockStop(e, e');
    case MessageStop =>
    case _ => SameBlock(e, e');
  }
}
