/** Translating one frame of the gateway's own stream into an OpenAI chunk: the path that
    decodes the frame and the path that only searches its text. */
module OpenAIChunk {
  import opened Text
  import opened JsonText
  import opened JsonTokens

  // ---- frames ----

  /** The frames the gateway prints, as its decoder reads them back. */
  datatype Event =
    | MessageStart(id: string, model: string, input: int, output: int)
    | ToolStart(index: int, id: string, name: string)
    | TextStart(index: int, text: string)
    | ThinkingStart(index: int, signature: string)
    | ArgumentsDelta(index: int, json: string)
    | TextDelta(index: int, text: string)
    | ThinkingDelta(index: int, thinking: string)
    | BlockStop(index: int)
    | MessageDelta(stopReason: string, output: int)
    | MessageStop

  function Opened(kind: string): seq<Token> { [Punct("{"), Key("type"), Str(kind), Punct(",")] }

  /** A frame about a content block: the part that describes it starts with its type. */
  function About(event: string, index: int, part: string, kind: string, rest: seq<Token>): seq<Token> {
    Opened(event) + [Key("index"), Num(index), Punct(","), Key(part), Punct("{"), Key("type"), Str(kind), Punct(",")] + rest
  }

  function BlockStart(index: int, kind: string, rest: seq<Token>): seq<Token> {
    About("content_block_start", index, "content_block", kind, rest)
  }

  function BlockDelta(index: int, kind: string, rest: seq<Token>): seq<Token> {
    About("content_block_delta", index, "delta", kind, rest)
  }

  /** How a frame is printed. */
  function Frame(e: Event): seq<Token> {
    match e
    case MessageStart(id, model, input, output) =>
      Opened("message_start")
      + [Key("message"), Punct("{"), Key("id"), Str(id), Punct(","), Key("type"), Str("message"), Punct(","),
         Key("role"), Str("assistant"), Punct(","), Key("content"), Punct("[],"), Key("model"), Str(model), Punct(","),
         Key("usage"), Punct("{"), Key("input_tokens"), Num(input), Punct(","), Key("output_tokens"), Num(output), Punct("}}}")]
    case ToolStart(index, id, name) =>
      BlockStart(index, "tool_use", [Key("id"), Str(id), Punct(","), Key("name"), Str(name), Punct(","), Key("input"), Punct("{}}}")])
    case TextStart(index, text) => BlockStart(index, "text", [Key("text"), Str(text), Punct("}}")])
    case ThinkingStart(index, signature) =>
      BlockStart(index, "thinking", [Key("thinking"), Str(""), Punct(","), Key("signature"), Str(signature), Punct("}}")])
    case ArgumentsDelta(index, json) => BlockDelta(index, "input_json_delta", [Key("partial_json"), Str(json), Punct("}}")])
    case TextDelta(index, text) => BlockDelta(index, "text_delta", [Key("text"), Str(text), Punct("}}")])
    case ThinkingDelta(index, thinking) => BlockDelta(index, "thinking_delta", [Key("thinking"), Str(thinking), Punct("}}")])
    case BlockStop(index) => Opened("content_block_stop") + [Key("index"), Num(index), Punct("}")]
    case MessageDelta(stopReason, output) =>
      Opened("message_delta")
      + [Key("delta"), Punct("{"), Key("stop_reason"), Str(stopReason), Punct("},"), Key("usage"), Punct("{"),
         Key("output_tokens"), Num(output), Punct("}}")]
    case MessageStop => [Punct("{"), Key("type"), Str("message_stop"), Punct("}")]
  }

  // ---- chunks ----

  datatype Delta = Role | Content(text: string) | Reasoning(text: string)
    | ToolOpen(index: int, id: string, name: string) | ToolArguments(index: int, text: string) | Nothing

  datatype Chunk = Chunk(id: string, created: int, model: string, delta: Delta, finish: Option<string>)

  /** The stop reasons that have a name of their own in each protocol. */
  datatype StopNames = StopNames(stop: string, endTurn: string, toolUse: string, toolCalls: string,
    maxTokens: string, length: string, refusal: string, contentFilter: string)

  const Names := StopNames("stop", "end_turn", "tool_use", "tool_calls", "max_tokens", "length", "refusal", "content_filter")

  /** A stop reason in OpenAI's words. */
  function Normalised(stopReason: string, n: StopNames): string {
    var s := Trim(stopReason);
    if s == "" || s == n.stop || s == n.endTurn then n.stop
    else if s == n.toolUse then n.toolCalls
    else if s == n.maxTokens then n.length
    else if s == n.refusal then n.contentFilter
    else s
  }

  /** The chunk for a frame, from its decoded fields. */
  function Slow(e: Event, msgID: string, created: int): Option<Chunk> {
    var chunk := (model: string, delta: Delta, finish: Option<string>) => Some(Chunk(msgID, created, model, delta, finish));
    match e
    case MessageStart(_, model, _, _) => chunk(model, Role, None)
    case ToolStart(index, id, name) => if index < 0 then None else chunk("", ToolOpen(index, id, name), None)
    case TextStart(index, text) => if index < 0 || text == "" then None else chunk("", Content(text), None)
    case ArgumentsDelta(index, json) => if index < 0 then None else chunk("", ToolArguments(index, json), None)
    case TextDelta(index, text) => if index < 0 then None else chunk("", Content(text), None)
    case ThinkingDelta(index, thinking) => if index < 0 then None else chunk("", Reasoning(thinking), None)
    case MessageDelta(stopReason, _) => chunk("", Nothing, Some(Normalised(stopReason, Names)))
    case _ => None
  }

  /** A chunk as it is written: every string is given as a literal. An absent tool id
      reads as the empty one. */
  datatype WireDelta = WireRole | WireContent(text: string) | WireReasoning(text: string)
    | WireToolOpen(index: int, id: Option<string>, name: string) | WireToolArguments(index: int, text: string) | WireNothing

  datatype Wire = Wire(id: string, created: int, model: string, delta: WireDelta, finish: Option<string>)

  function Object1(key: string, value: string): string { "{" + Marker(key) + value + "}" }

  function DeltaText(d: WireDelta): string {
    match d
    case WireRole => Object1("role", "\"assistant\"")
    case WireContent(text) => Object1("content", text)
    case WireReasoning(text) => Object1("reasoning_content", text)
    case WireToolOpen(index, id, name) =>
      Object1("tool_calls", "[{" + Marker("index") + Decimal(index)
        + (if id.Some? then "," + Marker("id") + id.value else "")
        + ("," + Marker("type") + "\"function\"") + ("," + Marker("function") + "{" + Marker("name")) + name
        + ("," + Marker("arguments") + "\"\"") + "}" + "}]")
    case WireToolArguments(index, text) =>
      Object1("tool_calls", "[{" + Marker("index") + Decimal(index) + "," + Marker("function") + Object1("arguments", text) + "}]")
    case WireNothing => "{}"
  }

  function FinishText(finish: Option<string>): string {
    if finish.Some? then "," + Marker("finish_reason") + finish.value else ""
  }

  function HeadText(w: Wire): string {
    ("{" + Marker("id")) + w.id
    + ("," + Marker("object") + "\"chat.completion.chunk\"" + ("," + Marker("created"))) + Decimal(w.created)
    + ("," + Marker("model")) + w.model
  }

  function ChoiceText(d: WireDelta, finish: Option<string>): string {
    ("{" + Marker("index") + "0,") + (Marker("delta") + DeltaText(d) + FinishText(finish) + "}")
  }

  /** The JSON of a chunk. */
  function Print(w: Wire): string {
    HeadText(w) + ("," + Marker("choices") + "[") + ChoiceText(w.delta, w.finish) + "]}"
  }

  function WriteDelta(d: Delta): WireDelta {
    match d
    case Role => WireRole
    case Content(text) => WireContent(Quote(text))
    case Reasoning(text) => WireReasoning(Quote(text))
    case ToolOpen(index, id, name) => WireToolOpen(index, if id == "" then None else Some(Quote(id)), Quote(name))
    case ToolArguments(index, text) => WireToolArguments(index, Quote(text))
    case Nothing => WireNothing
  }

  /** How the encoder writes a chunk. */
  function Write(c: Chunk): Wire {
    Wire(Quote(c.id), c.created, Quote(c.model), WriteDelta(c.delta), if c.finish.Some? then Some(Quote(c.finish.value)) else None)
  }

  /** Does the wire form read as this delta? */
  predicate DeltaReads(w: WireDelta, d: Delta) {
    match d
    case Role => w.WireRole?
    case Content(text) => w.WireContent? && Unquote(w.text) == Some(text)
    case Reasoning(text) => w.WireReasoning? && Unquote(w.text) == Some(text)
    case ToolOpen(index, id, name) =>
      && w.WireToolOpen? && w.index == index && Unquote(w.name) == Some(name)
      && (if w.id.None? then id == "" else Unquote(w.id.value) == Some(id))
    case ToolArguments(index, text) => w.WireToolArguments? && w.index == index && Unquote(w.text) == Some(text)
    case Nothing => w.WireNothing?
  }

  /** Does the wire form read as this chunk? */
  predicate ReadsAs(w: Wire, c: Chunk) {
    && Unquote(w.id) == Some(c.id) && w.created == c.created && Unquote(w.model) == Some(c.model)
    && DeltaReads(w.delta, c.delta)
    && (if c.finish.Some? then w.finish.Some? && Unquote(w.finish.value) == Some(c.finish.value) else w.finish.None?)
  }

  /** What the encoder writes reads as the chunk. */
  lemma WriteReads(c: Chunk)
    ensures ReadsAs(Write(c), c)
  {
    QuoteReads(c.id);
    QuoteReads(c.model);
    if c.finish.Some? { QuoteReads(c.finish.value); }
    match c.delta
    case Role =>
    case Content(text) => QuoteReads(text);
    case Reasoning(text) => QuoteReads(text);
    case ToolOpen(_, id, name) =>
      QuoteReads(id);
      QuoteReads(name);
    case ToolArguments(_, text) => QuoteReads(text);
    case Nothing =>
  }

  /** A wire form reads as one chunk only. */
  lemma OneReading(w: Wire, c: Chunk, c': Chunk)
    requires ReadsAs(w, c) && ReadsAs(w, c')
    ensures c == c'
  {
  }
}
