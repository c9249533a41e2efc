/** Appending the chunk for a frame: the path that only searches the frame's text first,
    the path that decodes it where the first finds nothing. */
module FastChunk {
  import opened Text
  import opened JsonText
  import opened JsonTokens
  import opened OpenAIChunk
  import opened FrameSearch
  import opened ChunkLiterals
  import opened ChunkWriters
  import opened ChunkDecoding

  /** The event name that accompanies a frame. */
  datatype EventName = NamedMessageStart | NamedBlockStart | NamedBlockDelta | NamedBlockStop | NamedMessageDelta | NamedMessageStop

  function NameOf(e: Event): EventName {
    match e
    case MessageStart(_, _, _, _) => NamedMessageStart
    case ToolStart(_, _, _) => NamedBlockStart
    case TextStart(_, _) => NamedBlockStart
    case ThinkingStart(_, _) => NamedBlockStart
    case ArgumentsDelta(_, _) => NamedBlockDelta
    case TextDelta(_, _) => NamedBlockDelta
    case ThinkingDelta(_, _) => NamedBlockDelta
    case BlockStop(_) => NamedBlockStop
    case MessageDelta(_, _) => NamedMessageDelta
    case MessageStop => NamedMessageStop
  }

  /** The index of a tool block, as the decoder reads it from the frame. */
  function ToolIndex(e: Event): Option<int> {
    match e
    case ToolStart(index, _, _) => if index < 0 then None else Some(index)
    case ArgumentsDelta(index, _) => if index < 0 then None else Some(index)
    case _ => None
  }

  /** What the fast path makes of a frame: it never looks at the index of a text or
      thinking delta, and names a stop reason without trimming it. */
  function Fast(e: Event, id: string, created: int): Option<Wire> {
    match e
    case MessageStart(_, model, _, _) => Some(Wire(IdLiteral(id), created, Quote(model), WireRole, None))
    case ToolStart(index, toolID, name) =>
      if index < 0 then None else Some(Wire(IdLiteral(id), created, Empty, WireToolOpen(index, Some(Quote(toolID)), Quote(name)), None))
    case TextStart(_, text) => if text == "" then None else Some(Wire(IdLiteral(id), created, Empty, WireContent(Quote(text)), None))
    case ArgumentsDelta(index, json) =>
      if index < 0 then None else Some(Wire(IdLiteral(id), created, Empty, WireToolArguments(index, Quote(json)), None))
    case TextDelta(_, text) => Some(Wire(IdLiteral(id), created, Empty, WireContent(Quote(text)), None))
    case ThinkingDelta(_, thinking) => Some(Wire(IdLiteral(id), created, Empty, WireReasoning(Quote(thinking)), None))
    case MessageDelta(stopReason, _) =>
      Some(Wire(IdLiteral(id), created, Empty, WireNothing, Some(NormalisedLiteral(Quote(stopReason), Names))))
    case _ => None
  }

  predicate Int64Index(e: Event) {
    match e
    case ToolStart(index, _, _) => Int64(index)
    case ArgumentsDelta(index, _) => Int64(index)
    case _ => true
  }

  /** What an append of the fast path came to. */
  ghost predicate FastResult(dst: string, e: Event, id: string, created: int, out: Option<string>, reserved: nat) {
    var w := Fast(e, id, created);
    if w.None? then out.None? else out.Some? && Appended(dst, out.value, w.value, id, reserved)
  }

  /** Searches the text of a frame. `e` stands for what the decoder makes of the text; of
      it the fast path reads the index of a tool block and nothing else. */
  method AppendFast(dst: string, id: string, created: int, event: EventName, data: string, e: Event)
    returns (out: Option<string>, reserved: nat)
    requires Int64(created) && Int64Index(e) && event == NameOf(e) && data == RenderAll(Frame(e))
    ensures FastResult(dst, e, id, created, out, reserved)
  {
    out, reserved := None, 0;
    match event {
      case NamedMessageStart => out, reserved := FastMessageStart(dst, id, created, data, e);
      case NamedBlockStart => out, reserved := FastBlockStart(dst, id, created, data, e);
      case NamedBlockDelta => out, reserved := FastBlockDelta(dst, id, created, data, e);
      case NamedMessageDelta => out, reserved := FastMessageDelta(dst, id, created, data, e);
      case NamedBlockStop =>
      case NamedMessageStop =>
    }
  }

  method FastMessageStart(dst: string, id: string, created: int, data: string, ghost e: Event)
    returns (out: Option<string>, reserved: nat)
    requires Int64(created) && e.MessageStart? && data == RenderAll(Frame(e))
    ensures FastResult(dst, e, id, created, out, reserved)
  {
    InMessageStart(e);
    out, reserved := None, 0;
    var model := Extract(data, Marker("model"));
    if model.Some? {
      var text;
      text, reserved := AppendMessageStart(dst, id, created, model.value);
      out := Some(text);
    }
  }

  method FastMessageDelta(dst: string, id: string, created: int, data: string, ghost e: Event)
    returns (out: Option<string>, reserved: nat)
    requires Int64(created) && e.MessageDelta? && data == RenderAll(Frame(e))
    ensures FastResult(dst, e, id, created, out, reserved)
  {
    InMessageDelta(e);
    out, reserved := None, 0;
    var stopReason := Extract(data, Marker("stop_reason"));
    if stopReason.Some? {
      var text;
      text, reserved := AppendMessageDelta(dst, id, created, NormalisedLiteral(stopReason.value, Names));
      out := Some(text);
    }
  }

  method FastBlockStart(dst: string, id: string, created: int, data: string, e: Event)
    returns (out: Option<string>, reserved: nat)
    requires Int64(created) && Int64Index(e) && NameOf(e).NamedBlockStart? && data == RenderAll(Frame(e))
    ensures FastResult(dst, e, id, created, out, reserved)
  {
    StartFound(e);
    out, reserved := None, 0;
    if Contains(data, Pair("type", "tool_use")) {
      var toolID := Extract(data, Marker("id"));
      var name := Extract(data, Marker("name"));
      if toolID.Some? && name.Some? {
        out, reserved := FastToolStart(dst, id, created, toolID.value, name.value, e);
        return;
      }
    }
    if Contains(data, Pair("type", "text")) {
      out, reserved := FastTextStart(dst, id, created, data, e);
    }
  }

  method FastToolStart(dst: string, id: string, created: int, toolID: string, name: string, e: Event)
    returns (out: Option<string>, reserved: nat)
    requires Int64(created) && Int64Index(e) && e.ToolStart? && toolID == Quote(e.id) && name == Quote(e.name)
    ensures FastResult(dst, e, id, created, out, reserved)
  {
    out, reserved := None, 0;
    var index := ToolIndex(e);
    if index.Some? {
      var text;
      text, reserved := AppendToolStart(dst, id, created, index.value, toolID, name);
      out := Some(text);
    }
  }

  method FastTextStart(dst: string, id: string, created: int, data: string, ghost e: Event)
    returns (out: Option<string>, reserved: nat)
    requires Int64(created) && e.TextStart? && data == RenderAll(Frame(e))
    ensures FastResult(dst, e, id, created, out, reserved)
  {
    StartFound(e);
    out, reserved := None, 0;
    var content := Extract(data, Marker("text"));
    if content.Some? && |content.value| > 2 {
      var text;
      text, reserved := AppendText(dst, id, created, content.value);
      out := Some(text);
    }
  }

  lemma StartFound(e: Event)
    requires NameOf(e).NamedBlockStart?
    ensures Typed(e, "tool_use") <==> e.ToolStart?
    ensures e.ToolStart? ==> Member(e, "id") == Some(Quote(e.id)) && Member(e, "name") == Some(Quote(e.name))
    ensures !e.ToolStart? ==> (Typed(e, "text") <==> e.TextStart?)
    ensures e.TextStart? ==> Member(e, "text") == Some(Quote(e.text)) && (|Quote(e.text)| > 2 <==> e.text != "")
  {
    match e
    case ToolStart(_, _, _) => InToolStart(e);
    case TextStart(_, _) => InTextStart(e);
    case ThinkingStart(_, _) => InThinkingStart(e);
  }

  /** What the three tests of a block delta find. */
  ghost predicate DeltaSearched(e: Event, isText: bool, isArguments: bool, isThinking: bool, value: Option<string>) {
    match e
    case TextDelta(_, text) => isText && value == Some(Quote(text))
    case ArgumentsDelta(_, json) => !isText && isArguments && value == Some(Quote(json))
    case ThinkingDelta(_, thinking) => !isText && !isArguments && isThinking && value == Some(Quote(thinking))
    case _ => false
  }

  method SearchDelta(data: string, ghost e: Event) returns (isText: bool, isArguments: bool, isThinking: bool, value: Option<string>)
    requires NameOf(e).NamedBlockDelta? && data == RenderAll(Frame(e))
    ensures DeltaSearched(e, isText, isArguments, isThinking, value)
  {
    match e {
      case TextDelta(_, _) => InTextDelta(e);
      case ArgumentsDelta(_, _) => InArgumentsDelta(e);
      case ThinkingDelta(_, _) => InThinkingDelta(e);
    }
    isText := Contains(data, Pair("type", "text_delta"));
    isArguments := !isText && Contains(data, Pair("type", "input_json_delta"));
    isThinking := !isText && !isArguments && Contains(data, Pair("type", "thinking_delta"));
    value := None;
    if isText {
      value := Extract(data, Marker("text"));
    } else if isArguments {
      value := Extract(data, Marker("partial_json"));
    } else if isThinking {
      value := Extract(data, Marker("thinking"));
    }
  }

  method FastBlockDelta(dst: string, id: string, created: int, data: string, e: Event)
    returns (out: Option<string>, reserved: nat)
    requires Int64(created) && Int64Index(e) && NameOf(e).NamedBlockDelta? && data == RenderAll(Frame(e))
    ensures FastResult(dst, e, id, created, out, reserved)
  {
    out, reserved := None, 0;
    var isText, isArguments, isThinking, value := SearchDelta(data, e);
    if value.None? {
      return;
    }
    var text;
    if isText {
      text, reserved := AppendText(dst, id, created, value.value);
      out := Some(text);
    } else if isArguments {
      var index := ToolIndex(e);
      if index.Some? {
        text, reserved := AppendToolArgs(dst, id, created, index.value, value.value);
        out := Some(text);
      }
    } else if isThinking {
      text, reserved := AppendThinking(dst, id, created, value.value);
      out := Some(text);
    }
  }

  // ---- both paths ----

  /** A frame on which the fast path does not skip a check the decoding path makes: a
      negative index under text or thinking, or a stop reason to be trimmed. */
  predicate Regular(e: Event) {
    match e
    case TextStart(index, text) => index >= 0 || text == ""
    case TextDelta(index, _) => index >= 0
    case ThinkingDelta(index, _) => index >= 0
    case MessageDelta(stopReason, _) => Clean(stopReason)
    case _ => true
  }

  /** Does this say the same as the decoding path? */
  predicate Agrees(w: Option<Wire>, slow: Option<Chunk>) {
    if slow.None? then w.None? else w.Some? && ReadsAs(w.value, slow.value)
  }

  /** What is appended for a frame: what the fast path finds, else what the decoding path
      writes. */
  function Both(e: Event, id: string, created: int): Option<Wire> {
    if Fast(e, id, created).Some? then Fast(e, id, created)
    else if Slow(e, id, created).Some? then Some(Write(Slow(e, id, created).value))
    else None
  }

  predicate FinishReads(finish: Option<string>, reason: Option<string>) {
    if reason.Some? then finish.Some? && Unquote(finish.value) == reason else finish.None?
  }

  /** Wire forms with the same envelope agree if their deltas and finish reasons do. */
  lemma EnvelopeReads(id: string, created: int, d: WireDelta, finish: Option<string>, delta: Delta, reason: Option<string>)
    ensures ReadsAs(Wire(IdLiteral(id), created, Empty, d, finish), Chunk(id, created, "", delta, reason))
        <==> (DeltaReads(d, delta) && FinishReads(finish, reason))
  {
    IdReads(id);
    EmptyReads();
  }

  lemma MessageStartAgrees(e: Event, id: string, created: int)
    requires e.MessageStart?
    ensures Agrees(Both(e, id, created), Slow(e, id, created))
  {
    IdReads(id);
    QuoteReads(e.model);
  }

  lemma StopEnvelope(id: string, created: int, finish: string, reason: string)
    ensures ReadsAs(Wire(IdLiteral(id), created, Empty, WireNothing, Some(finish)), Chunk(id, created, "", Nothing, Some(reason)))
        <==> Unquote(finish) == Some(reason)
  {
    EnvelopeReads(id, created, WireNothing, Some(finish), Nothing, Some(reason));
  }

  lemma StopReads(s: string, n: StopNames, id: string, created: int, finish: string, reason: string)
    requires AllWords(n) && finish == NormalisedLiteral(Quote(s), n) && reason == Normalised(s, n)
    ensures ReadsAs(Wire(IdLiteral(id), created, Empty, WireNothing, Some(finish)), Chunk(id, created, "", Nothing, Some(reason))) <==> Clean(s)
  {
    StopReasonsAgree(s, n);
    StopEnvelope(id, created, finish, reason);
  }

  lemma MessageDeltaAgrees(e: Event, id: string, created: int)
    requires e.MessageDelta?
    ensures Agrees(Both(e, id, created), Slow(e, id, created)) <==> Regular(e)
  {
    NamesAreWords();
    var finish, reason := NormalisedLiteral(Quote(e.stopReason), Names), Normalised(e.stopReason, Names);
    StopReads(e.stopReason, Names, id, created, finish, reason);
  }

  lemma ToolStartAgrees(e: Event, id: string, created: int)
    requires e.ToolStart?
    ensures Agrees(Both(e, id, created), Slow(e, id, created))
  {
    ToolOpenReads(e.index, e.id, e.name);
    EnvelopeReads(id, created, WireToolOpen(e.index, Some(Quote(e.id)), Quote(e.name)), None, ToolOpen(e.index, e.id, e.name), None);
  }

  lemma ToolOpenReads(index: int, toolID: string, name: string)
    ensures DeltaReads(WireToolOpen(index, Some(Quote(toolID)), Quote(name)), ToolOpen(index, toolID, name))
  {
    QuoteReads(toolID);
    QuoteReads(name);
  }

  lemma ArgumentsRead(index: int, json: string)
    ensures DeltaReads(WireToolArguments(index, Quote(json)), ToolArguments(index, json))
  {
    QuoteReads(json);
  }

  lemma ArgumentsAgree(e: Event, id: string, created: int)
    requires e.ArgumentsDelta?
    ensures Agrees(Both(e, id, created), Slow(e, id, created))
  {
    ArgumentsRead(e.index, e.json);
    EnvelopeReads(id, created, WireToolArguments(e.index, Quote(e.json)), None, ToolArguments(e.index, e.json), None);
  }

  lemma TextAgrees(e: Event, id: string, created: int)
    requires e.TextStart? || e.TextDelta?
    ensures Agrees(Both(e, id, created), Slow(e, id, created)) <==> Regular(e)
  {
    ContentReads(id, created, e.text);
  }

  lemma ContentReads(id: string, created: int, text: string)
    ensures ReadsAs(Wire(IdLiteral(id), created, Empty, WireContent(Quote(text)), None), Chunk(id, created, "", Content(text), None))
  {
    QuoteReads(text);
    EnvelopeReads(id, created, WireContent(Quote(text)), None, Content(text), None);
  }

  lemma ThinkingAgrees(e: Event, id: string, created: int)
    requires e.ThinkingDelta?
    ensures Agrees(Both(e, id, created), Slow(e, id, created)) <==> Regular(e)
  {
    ReasoningReads(id, created, e.thinking);
  }

  lemma ReasoningReads(id: string, created: int, text: string)
    ensures ReadsAs(Wire(IdLiteral(id), created, Empty, WireReasoning(Quote(text)), None), Chunk(id, created, "", Reasoning(text), None))
  {
    QuoteReads(text);
    EnvelopeReads(id, created, WireReasoning(Quote(text)), None, Reasoning(text), None);
  }

  /** The fast path says what the decoding path says exactly on regular frames. */
  lemma FastAgreesExactly(e: Event, id: string, created: int)
    ensures Agrees(Both(e, id, created), Slow(e, id, created)) <==> Regular(e)
  {
    match e
    case MessageStart(_, _, _, _) => MessageStartAgrees(e, id, created);
    case MessageDelta(_, _) => MessageDeltaAgrees(e, id, created);
    case ToolStart(_, _, _) => ToolStartAgrees(e, id, created);
    case ArgumentsDelta(_, _) => ArgumentsAgree(e, id, created);
    case TextStart(_, _) => TextAgrees(e, id, created);
    case TextDelta(_, _) => TextAgrees(e, id, created);
    case ThinkingDelta(_, _) => ThinkingAgrees(e, id, created);
    case _ =>
  }

  lemma EmptyReads()
    ensures Unquote(Empty) == Some("")
  {
    WordLiteral("");
    assert Empty == Literal("");
  }

  /** There are irregular frames: every stop reason with a space in front, such as
      " end_turn", makes one, and so does every text at a negative index. */
  lemma IrregularFrames(e: Event)
    requires (e.MessageDelta? && e.stopReason != "" && e.stopReason[0] == ' ') || (e.TextDelta? && e.index < 0)
    ensures !Regular(e)
  {
    if e.MessageDelta? { Padded(e.stopReason); }
  }

  lemma Padded(s: string)
    requires s != "" && s[0] == ' '
    ensures !Clean(s)
  {
    assert IsSpace(s[0]);
  }

  /** Where the literals the fast path makes are the encoder's own, the bytes agree too:
      no character of a plain message id is one the encoder would escape for HTML, and
      a tool id is not empty. */
  lemma BytesAgree(e: Event, id: string, created: int)
    requires Regular(e) && Fast(e, id, created).Some?
    requires Raw(id) ==> forall i :: 0 <= i < |id| ==> Untouched(id[i])
    requires e.ToolStart? ==> e.id != ""
    ensures Slow(e, id, created).Some? && Print(Fast(e, id, created).value) == Print(Write(Slow(e, id, created).value))
  {
    if Raw(id) { PlainQuote(id); }
    SameWire(e, id, created);
  }

  lemma SameWire(e: Event, id: string, created: int)
    requires Regular(e) && Fast(e, id, created).Some? && IdLiteral(id) == Quote(id) && (e.ToolStart? ==> e.id != "")
    ensures Slow(e, id, created).Some? && Fast(e, id, created).value == Write(Slow(e, id, created).value)
  {
    EmptyQuoted();
    if e.MessageDelta? {
      NamesAreWords();
      SameStop(e.stopReason, Names, id, created);
    }
  }

  lemma SameStop(s: string, n: StopNames, id: string, created: int)
    requires AllWords(n) && Clean(s) && IdLiteral(id) == Quote(id)
    ensures Wire(IdLiteral(id), created, Empty, WireNothing, Some(NormalisedLiteral(Quote(s), n)))
        == Write(Chunk(id, created, "", Nothing, Some(Normalised(s, n))))
  {
    CleanNamed(s, n);
    StopWritten(id, created, NormalisedLiteral(Quote(s), n), Normalised(s, n));
  }

  lemma StopWritten(id: string, created: int, finish: string, reason: string)
    requires finish == Quote(reason) && IdLiteral(id) == Quote(id)
    ensures Wire(IdLiteral(id), created, Empty, WireNothing, Some(finish)) == Write(Chunk(id, created, "", Nothing, Some(reason)))
  {
    EmptyQuoted();
  }

  lemma EmptyQuoted()
    ensures Quote("") == Empty
  {
    assert Escape("") == "";
  }

  // ---- as text ----

  /** Is this the JSON of the chunk, or nothing where there is no chunk? */
  ghost predicate Says(text: Option<string>, chunk: Option<Chunk>) {
    if chunk.None? then text.None? else text.Some? && TextReads(text.value, chunk.value)
  }

  function Printed(w: Option<Wire>): Option<string> { if w.None? then None else Some(Print(w.value)) }

  lemma SaysExactly(w: Option<Wire>, chunk: Option<Chunk>)
    requires w.Some? ==> Literals(w.value)
    ensures Says(Printed(w), chunk) <==> Agrees(w, chunk)
  {
    if w.Some? && chunk.Some? { TextReadsExactly(w.value, chunk.value); }
  }

  lemma WordIsLiteral(w: string)
    requires Word(w)
    ensures IsLiteral(Literal(w))
  {
    WordLiteral(w);
    QuoteIsLiteral(w);
  }

  lemma StopIsLiteral(s: string, n: StopNames)
    requires AllWords(n)
    ensures IsLiteral(NormalisedLiteral(Quote(s), n))
  {
    WordIsLiteral(n.stop);
    WordIsLiteral(n.toolCalls);
    WordIsLiteral(n.length);
    WordIsLiteral(n.contentFilter);
    QuoteIsLiteral(s);
  }

  lemma FastLiterals(e: Event, id: string, created: int)
    requires Fast(e, id, created).Some?
    ensures Literals(Fast(e, id, created).value)
  {
    IdIsLiteral(id);
    QuoteIsLiteral("");
    EmptyQuoted();
    FastLiteralDelta(e, id, created);
    if e.MessageStart? {
      QuoteIsLiteral(e.model);
    } else if e.MessageDelta? {
      NamesAreWords();
      StopIsLiteral(e.stopReason, Names);
    }
  }

  lemma FastLiteralDelta(e: Event, id: string, created: int)
    requires Fast(e, id, created).Some?
    ensures LiteralDelta(Fast(e, id, created).value.delta)
  {
    match e
    case ToolStart(_, toolID, name) =>
      QuoteIsLiteral(toolID);
      QuoteIsLiteral(name);
    case TextStart(_, text) => QuoteIsLiteral(text);
    case ArgumentsDelta(_, json) => QuoteIsLiteral(json);
    case TextDelta(_, text) => QuoteIsLiteral(text);
    case ThinkingDelta(_, thinking) => QuoteIsLiteral(thinking);
    case _ =>
  }

  lemma BothLiterals(e: Event, id: string, created: int)
    requires Both(e, id, created).Some?
    ensures Literals(Both(e, id, created).value)
  {
    assert Fast(e, id, created).Some?;
    FastLiterals(e, id, created);
  }

  /** The text appended is the JSON of the decoding path's chunk exactly on regular
      frames. */
  lemma TextAgreesExactly(e: Event, id: string, created: int)
    ensures Says(Printed(Both(e, id, created)), Slow(e, id, created)) <==> Regular(e)
  {
    FastAgreesExactly(e, id, created);
    if Both(e, id, created).Some? { BothLiterals(e, id, created); }
    SaysExactly(Both(e, id, created), Slow(e, id, created));
  }

  function Added(dst: string, text: Option<string>): Option<string> {
    if text.None? then None else Some(dst + text.value)
  }

  /** Is this what was there with the JSON of the chunk after it, or nothing where there is
      no chunk? */
  ghost predicate AddsChunk(dst: string, out: Option<string>, chunk: Option<Chunk>) {
    (out.Some? ==> dst <= out.value) && Says(if out.None? then None else Some(out.value[|dst|..]), chunk)
  }

  lemma AddsIfSays(dst: string, text: Option<string>, chunk: Option<Chunk>)
    ensures AddsChunk(dst, Added(dst, text), chunk) <==> Says(text, chunk)
  {
    if text.Some? { assert (dst + text.value)[|dst|..] == text.value; }
  }

  /** Appends the chunk for a frame. */
  method AppendOpenAIChunk(dst: string, id: string, created: int, event: EventName, data: string, e: Event)
    returns (out: Option<string>)
    requires Int64(created) && Int64Index(e) && event == NameOf(e) && data == RenderAll(Frame(e))
    ensures out == Added(dst, Printed(Both(e, id, created)))
    ensures AddsChunk(dst, out, Slow(e, id, created)) <==> Regular(e)
  {
    TextAgreesExactly(e, id, created);
    AddsIfSays(dst, Printed(Both(e, id, created)), Slow(e, id, created));
    var reserved;
    out, reserved := AppendFast(dst, id, created, event, data, e);
    if out.None? {
      out := AppendEncoded(dst, Slow(e, id, created));
    }
  }

  function AppendEncoded(dst: string, chunk: Option<Chunk>): Option<string> {
    match chunk
    case None => None
    case Some(c) => Some(dst + Print(Write(c)))
  }
}
