/** What searching the text of a frame finds. */
module FrameSearch {
  import opened Text
  import opened JsonText
  import opened JsonTokens
  import opened OpenAIChunk

  lemma Words()
    ensures Word("type") && Word("index") && Word("id") && Word("name") && Word("text") && Word("model")
    ensures Word("message") && Word("role") && Word("content") && Word("usage") && Word("input") && Word("delta")
    ensures Word("input_tokens") && Word("output_tokens") && Word("content_block") && Word("thinking") && Word("signature")
    ensures Word("partial_json") && Word("stop_reason")
  {
  }

  lemma AboutValid(event: string, index: int, part: string, kind: string, rest: seq<Token>)
    requires Word(part) && AllValid(rest)
    ensures AllValid(About(event, index, part, kind, rest))
  {
    Words();
    var head := [Key("index"), Num(index), Punct(","), Key(part), Punct("{"), Key("type"), Str(kind), Punct(",")];
    assert AllValid(Opened(event)) && AllValid(head);
  }

  /** In a frame about a block the type markers find the type of the block. */
  lemma TypeFound(event: string, index: int, part: string, kind: string, rest: seq<Token>, w: string)
    requires Word(part) && part != "type" && AllValid(rest) && Key("type") !in rest && w != event
    ensures Contains(RenderAll(About(event, index, part, kind, rest)), Pair("type", w)) <==> w == kind
  {
    var ts := About(event, index, part, kind, rest);
    AboutValid(event, index, part, kind, rest);
    Words();
    if w == kind {
      PairFound(ts, "type", 9, w);
    } else {
      OtherType(event, index, part, kind, rest, w);
      PairAbsent(ts, "type", w);
    }
  }

  lemma OtherType(event: string, index: int, part: string, kind: string, rest: seq<Token>, w: string)
    requires part != "type" && Key("type") !in rest && w != event && w != kind
    ensures NeverValued(About(event, index, part, kind, rest), "type", w)
  {
    var ts := About(event, index, part, kind, rest);
    assert forall j :: 12 <= j < |ts| ==> ts[j] in rest;
  }

  /** Searching for a key of the part finds its value there. */
  lemma MemberFound(event: string, index: int, part: string, kind: string, rest: seq<Token>, k: string, j: nat, v: string)
    requires Word(part) && AllValid(rest) && Word(k) && k != "type" && k != "index" && k != part
    requires j + 1 < |rest| && rest[j] == Key(k) && rest[j + 1] == Str(v) && Keyless(rest, k, j)
    ensures LiteralAfter(RenderAll(About(event, index, part, kind, rest)), Marker(k)) == Some(Quote(v))
  {
    var ts := About(event, index, part, kind, rest);
    AboutValid(event, index, part, kind, rest);
    assert forall i :: 0 <= i < j ==> ts[12 + i] == rest[i];
    assert Keyless(ts, k, 12 + j) by {
      assert forall i :: 12 <= i < 12 + j ==> ts[i] == rest[i - 12];
    }
    ValueExtracted(ts, k, 12 + j, v);
  }

  // ---- frame by frame ----

  lemma InMessageStart(e: Event)
    requires e.MessageStart?
    ensures LiteralAfter(RenderAll(Frame(e)), Marker("model")) == Some(Quote(e.model))
  {
    Words();
    MessageStartValid(e);
    ValueExtracted(Frame(e), "model", 17, e.model);
  }

  lemma MessageStartValid(e: Event)
    requires e.MessageStart?
    ensures AllValid(Frame(e))
  {
    Words();
    var head := [Key("message"), Punct("{"), Key("id"), Str(e.id), Punct(","), Key("type"), Str("message"), Punct(",")];
    var middle := [Key("role"), Str("assistant"), Punct(","), Key("content"), Punct("[],"), Key("model"), Str(e.model), Punct(",")];
    var tail := [Key("usage"), Punct("{"), Key("input_tokens"), Num(e.input), Punct(","), Key("output_tokens"), Num(e.output), Punct("}}}")];
    assert AllValid(Opened("message_start")) && AllValid(head) && AllValid(middle) && AllValid(tail);
    assert Frame(e) == Opened("message_start") + (head + middle + tail);
  }

  lemma InMessageDelta(e: Event)
    requires e.MessageDelta?
    ensures LiteralAfter(RenderAll(Frame(e)), Marker("stop_reason")) == Some(Quote(e.stopReason))
  {
    Words();
    var ts := Frame(e);
    assert AllValid(ts);
    ValueExtracted(ts, "stop_reason", 6, e.stopReason);
  }

  predicate Typed(e: Event, kind: string) { Contains(RenderAll(Frame(e)), Pair("type", kind)) }

  function Member(e: Event, k: string): Option<string> { LiteralAfter(RenderAll(Frame(e)), Marker(k)) }

  /** The types of a block that starts. */
  lemma StartTyped(e: Event, index: int, kind: string, rest: seq<Token>, w: string)
    requires Frame(e) == BlockStart(index, kind, rest) && AllValid(rest) && Key("type") !in rest && w != "content_block_start"
    ensures Typed(e, w) <==> w == kind
  {
    Words();
    TypeFound("content_block_start", index, "content_block", kind, rest, w);
  }

  lemma StartMember(e: Event, index: int, kind: string, rest: seq<Token>, k: string, j: nat, v: string)
    requires Frame(e) == BlockStart(index, kind, rest) && AllValid(rest)
    requires Word(k) && k != "type" && k != "index" && k != "content_block"
    requires j + 1 < |rest| && rest[j] == Key(k) && rest[j + 1] == Str(v) && Keyless(rest, k, j)
    ensures Member(e, k) == Some(Quote(v))
  {
    Words();
    MemberFound("content_block_start", index, "content_block", kind, rest, k, j, v);
  }

  function ToolPart(id: string, name: string): (r: seq<Token>)
    ensures AllValid(r) && Key("type") !in r
  {
    Words();
    [Key("id"), Str(id), Punct(","), Key("name"), Str(name), Punct(","), Key("input"), Punct("{}}}")]
  }

  lemma ToolId(e: Event)
    requires e.ToolStart?
    ensures Member(e, "id") == Some(Quote(e.id))
  {
    StartMember(e, e.index, "tool_use", ToolPart(e.id, e.name), "id", 0, e.id);
  }

  lemma ToolName(e: Event)
    requires e.ToolStart?
    ensures Member(e, "name") == Some(Quote(e.name))
  {
    StartMember(e, e.index, "tool_use", ToolPart(e.id, e.name), "name", 3, e.name);
  }

  lemma InToolStart(e: Event)
    requires e.ToolStart?
    ensures Typed(e, "tool_use") && Member(e, "id") == Some(Quote(e.id)) && Member(e, "name") == Some(Quote(e.name))
  {
    StartTyped(e, e.index, "tool_use", ToolPart(e.id, e.name), "tool_use");
    ToolId(e);
    ToolName(e);
  }

  function TextPart(text: string): (r: seq<Token>)
    ensures AllValid(r) && Key("type") !in r
  {
    Words();
    [Key("text"), Str(text), Punct("}}")]
  }

  lemma TextStartTyped(e: Event, w: string)
    requires e.TextStart? && w != "content_block_start"
    ensures Typed(e, w) <==> w == "text"
  {
    StartTyped(e, e.index, "text", TextPart(e.text), w);
  }

  lemma TextStartText(e: Event)
    requires e.TextStart?
    ensures Member(e, "text") == Some(Quote(e.text))
  {
    StartMember(e, e.index, "text", TextPart(e.text), "text", 0, e.text);
  }

  lemma InTextStart(e: Event)
    requires e.TextStart?
    ensures !Typed(e, "tool_use") && Typed(e, "text") && Member(e, "text") == Some(Quote(e.text))
  {
    TextStartTyped(e, "tool_use");
    TextStartTyped(e, "text");
    TextStartText(e);
  }

  lemma InThinkingStart(e: Event)
    requires e.ThinkingStart?
    ensures !Typed(e, "tool_use") && !Typed(e, "text")
  {
    Words();
    var rest := [Key("thinking"), Str(""), Punct(","), Key("signature"), Str(e.signature), Punct("}}")];
    assert Frame(e) == BlockStart(e.index, "thinking", rest) && AllValid(rest);
    StartTyped(e, e.index, "thinking", rest, "tool_use");
    StartTyped(e, e.index, "thinking", rest, "text");
  }

  function DeltaPart(k: string, v: string): (r: seq<Token>)
    requires Word(k)
    ensures AllValid(r) && |r| == 3 && r[0] == Key(k) && r[1] == Str(v) && r[2].Punct?
  {
    [Key(k), Str(v), Punct("}}")]
  }

  lemma DeltaTyped(e: Event, index: int, kind: string, k: string, v: string, w: string)
    requires Word(k) && k != "type" && Frame(e) == BlockDelta(index, kind, DeltaPart(k, v)) && w != "content_block_delta"
    ensures Typed(e, w) <==> w == kind
  {
    Words();
    TypeFound("content_block_delta", index, "delta", kind, DeltaPart(k, v), w);
  }

  lemma DeltaMember(e: Event, index: int, kind: string, k: string, v: string)
    requires Word(k) && k != "type" && k != "index" && k != "delta" && Frame(e) == BlockDelta(index, kind, DeltaPart(k, v))
    ensures Member(e, k) == Some(Quote(v))
  {
    Words();
    MemberFound("content_block_delta", index, "delta", kind, DeltaPart(k, v), k, 0, v);
  }

  lemma InDelta(e: Event, index: int, kind: string, k: string, v: string)
    requires Word(k) && k != "type" && k != "index" && k != "delta" && Frame(e) == BlockDelta(index, kind, DeltaPart(k, v))
    ensures Member(e, k) == Some(Quote(v))
    ensures Typed(e, "text_delta") <==> kind == "text_delta"
    ensures Typed(e, "input_json_delta") <==> kind == "input_json_delta"
    ensures Typed(e, "thinking_delta") <==> kind == "thinking_delta"
  {
    DeltaMember(e, index, kind, k, v);
    DeltaTyped(e, index, kind, k, v, "text_delta");
    DeltaTyped(e, index, kind, k, v, "input_json_delta");
    DeltaTyped(e, index, kind, k, v, "thinking_delta");
  }

  lemma InTextDelta(e: Event)
    requires e.TextDelta?
    ensures Typed(e, "text_delta") && Member(e, "text") == Some(Quote(e.text))
  {
    Words();
    InDelta(e, e.index, "text_delta", "text", e.text);
  }

  lemma InArgumentsDelta(e: Event)
    requires e.ArgumentsDelta?
    ensures !Typed(e, "text_delta") && Typed(e, "input_json_delta") && Member(e, "partial_json") == Some(Quote(e.json))
  {
    Words();
    InDelta(e, e.index, "input_json_delta", "partial_json", e.json);
  }

  lemma InThinkingDelta(e: Event)
    requires e.ThinkingDelta?
    ensures !Typed(e, "text_delta") && !Typed(e, "input_json_delta") && Typed(e, "thinking_delta")
    ensures Member(e, "thinking") == Some(Quote(e.thinking))
  {
    Words();
    InDelta(e, e.index, "thinking_delta", "thinking", e.thinking);
  }
}
