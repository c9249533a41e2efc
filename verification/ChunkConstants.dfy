/** The constant parts of a chunk, and that they make up its JSON. */
module ChunkConstants {
  import opened Text
  import opened JsonTokens
  import opened OpenAIChunk

  // ---- the constant parts ----

  const IdPrefix := "{\"id\":"
  const ObjectCreated := ",\"object\":\"chat.completion.chunk\"" + ",\"created\":"
  const ModelPrefix := ",\"model\":"
  const ChoicesPrefix := ",\"choices\":[{\"index\":0,"
  const MessageStartSuffix := "\"delta\":{\"role\":\"assistant\"}}]}"
  const TextDeltaPrefix := "\"delta\":{\"content\":"
  const ContentDeltaSuffix := "}}]}"
  const ThinkingDeltaPrefix := "\"delta\":{\"reasoning_content\":"
  const ToolIndexPrefix := "\"delta\":{\"tool_calls\":[{\"index\":"
  const ToolArgsPrefix := ",\"function\":{\"arguments\":"
  const ToolArgsSuffix := "}}]}}]}"
  const ToolStartPrefix := ",\"id\":"
  const ToolStartNamePrefix := ",\"type\":\"function\"" + ",\"function\":{\"name\":"
  const ToolStartSuffix := ",\"arguments\":\"\"}}]}}]}"
  const MessageDeltaPrefix := "\"delta\":{},\"finish_reason\":"
  const MessageDeltaSuffix := "}]}"

  function PrefixText(w: Wire): string {
    IdPrefix + w.id + ObjectCreated + Decimal(w.created) + ModelPrefix + w.model + ChoicesPrefix
  }

  /** What follows the prefix of a chunk. */
  function RestText(d: WireDelta, finish: Option<string>): string {
    (Marker("delta") + DeltaText(d) + FinishText(finish) + "}") + "]}"
  }

  lemma IdAndModel()
    ensures "{" + Marker("id") == IdPrefix && "," + Marker("model") == ModelPrefix
  {
  }

  lemma ObjectConstant()
    ensures "," + Marker("object") + "\"chat.completion.chunk\"" == ",\"object\":\"chat.completion.chunk\""
  {
    assert "," + Marker("object") == ",\"object\":";
  }

  lemma CreatedConstant()
    ensures "," + Marker("created") == ",\"created\":"
  {
  }

  lemma ChoicesAndIndex()
    ensures ("," + Marker("choices") + "[") + ("{" + Marker("index") + "0,") == ChoicesPrefix
  {
  }

  lemma Regroup(head: string, a: string, b: string, c: string, d: string)
    ensures head + a + (b + c) + d == head + (a + b) + (c + d)
  {
  }

  lemma PrintParts(w: Wire)
    ensures Print(w) == PrefixText(w) + RestText(w.delta, w.finish)
  {
    IdAndModel();
    ObjectConstant();
    CreatedConstant();
    ChoicesAndIndex();
    var choice := Marker("delta") + DeltaText(w.delta) + FinishText(w.finish) + "}";
    Regroup(HeadText(w), "," + Marker("choices") + "[", "{" + Marker("index") + "0,", choice, "]}");
  }

  // ---- the rest, shape by shape ----

  lemma NestedOnce(delta: string, open: string, key: string, v: string, close: string, end: string)
    ensures delta + (open + key + v + close) + "" + close + end == (delta + open + key) + v + (close + close + end)
  {
  }

  lemma RoleRest()
    ensures RestText(WireRole, None) == MessageStartSuffix
  {
  }

  lemma ContentConstants()
    ensures Marker("delta") + "{" + Marker("content") == TextDeltaPrefix && "}" + "}" + "]}" == ContentDeltaSuffix
  {
  }

  lemma ContentRest(v: string)
    ensures RestText(WireContent(v), None) == TextDeltaPrefix + v + ContentDeltaSuffix
  {
    ContentConstants();
    NestedOnce(Marker("delta"), "{", Marker("content"), v, "}", "]}");
  }

  lemma ReasoningConstants()
    ensures Marker("delta") + "{" + Marker("reasoning_content") == ThinkingDeltaPrefix && "}" + "}" + "]}" == ContentDeltaSuffix
  {
  }

  lemma ReasoningRest(v: string)
    ensures RestText(WireReasoning(v), None) == ThinkingDeltaPrefix + v + ContentDeltaSuffix
  {
    ReasoningConstants();
    NestedOnce(Marker("delta"), "{", Marker("reasoning_content"), v, "}", "]}");
  }

  lemma StopRest(v: string)
    ensures RestText(WireNothing, Some(v)) == MessageDeltaPrefix + v + MessageDeltaSuffix
  {
    StopConstants();
    StopGrouped(Marker("delta") + "{}", ",", Marker("finish_reason"), v, "}", "]}");
  }

  lemma StopConstants()
    ensures Marker("delta") + "{}" + "," + Marker("finish_reason") == MessageDeltaPrefix && "}" + "]}" == MessageDeltaSuffix
  {
  }

  lemma StopGrouped(delta: string, comma: string, key: string, v: string, close: string, end: string)
    ensures delta + (comma + key + v) + close + end == (delta + comma + key) + v + (close + end)
  {
  }

  lemma ToolOpenConstant()
    ensures Marker("delta") + "{" + Marker("tool_calls") + "[{" + Marker("index") == ToolIndexPrefix
  {
    assert Marker("delta") + "{" == "\"delta\":{";
    assert Marker("tool_calls") + "[{" == "\"tool_calls\":[{";
  }

  lemma ToolArgsConstants()
    ensures "," + Marker("function") + "{" + Marker("arguments") == ToolArgsPrefix
    ensures "}" + "}]" + "}" + "}" + "]}" == ToolArgsSuffix
  {
  }

  lemma ArgsGrouped(delta: string, b: string, calls: string, bb: string, index: string, n: string, comma: string, fn: string, args: string,
                    v: string, e: string, ee: string, end: string)
    ensures delta + (b + calls + (bb + index + n + comma + fn + (b + args + v + e) + ee) + e) + "" + e + end
      == (delta + b + calls + bb + index) + n + (comma + fn + b + args) + v + (e + ee + e + e + end)
  {
  }

  lemma ArgumentsRest(index: int, v: string)
    ensures RestText(WireToolArguments(index, v), None) == ToolIndexPrefix + Decimal(index) + ToolArgsPrefix + v + ToolArgsSuffix
  {
    ToolOpenConstant();
    ToolArgsConstants();
    ArgsGrouped(Marker("delta"), "{", Marker("tool_calls"), "[{", Marker("index"), Decimal(index), ",", Marker("function"), Marker("arguments"),
                v, "}", "}]", "]}");
  }

  lemma ToolTypeConstant()
    ensures "," + Marker("type") + "\"function\"" == ",\"type\":\"function\""
  {
  }

  lemma ToolNameConstant()
    ensures "," + Marker("function") + "{" + Marker("name") == ",\"function\":{\"name\":"
  {
  }

  lemma ToolCloseConstant()
    ensures "," + Marker("id") == ToolStartPrefix
    ensures "," + Marker("arguments") + "\"\"" + "}" + "}]" + "}" + "}" + "]}" == ToolStartSuffix
  {
  }

  lemma OpenGrouped(delta: string, b: string, calls: string, bb: string, index: string, n: string, comma: string, id: string, type_: string,
                    fn: string, name: string, args: string, e: string, ee: string, end: string)
    ensures delta + (b + calls + (bb + index + n + (comma + id) + type_ + fn + name + args + e + ee) + e) + "" + e + end
      == (delta + b + calls + bb + index) + n + comma + id + (type_ + fn) + name + (args + e + ee + e + e + end)
  {
  }

  lemma OpenRest(index: int, id: string, name: string)
    ensures RestText(WireToolOpen(index, Some(id), name), None)
      == ToolIndexPrefix + Decimal(index) + ToolStartPrefix + id + ToolStartNamePrefix + name + ToolStartSuffix
  {
    ToolOpenConstant();
    ToolTypeConstant();
    ToolNameConstant();
    ToolCloseConstant();
    OpenGrouped(Marker("delta"), "{", Marker("tool_calls"), "[{", Marker("index"), Decimal(index), "," + Marker("id"), id,
                "," + Marker("type") + "\"function\"", "," + Marker("function") + "{" + Marker("name"), name,
                "," + Marker("arguments") + "\"\"", "}", "}]", "]}");
  }

  lemma OpenGroupedNoId(delta: string, b: string, calls: string, bb: string, index: string, n: string, type_: string,
                        fn: string, name: string, args: string, e: string, ee: string, end: string)
    ensures delta + (b + calls + (bb + index + n + "" + type_ + fn + name + args + e + ee) + e) + "" + e + end
      == (delta + b + calls + bb + index) + n + (type_ + fn) + name + (args + e + ee + e + e + end)
  {
  }

  /** Without an id, as the encoder writes a tool call whose id is empty. */
  lemma OpenRestNoId(index: int, name: string)
    ensures RestText(WireToolOpen(index, None, name), None)
      == ToolIndexPrefix + Decimal(index) + ToolStartNamePrefix + name + ToolStartSuffix
  {
    ToolOpenConstant();
    ToolTypeConstant();
    ToolNameConstant();
    ToolCloseConstant();
    OpenGroupedNoId(Marker("delta"), "{", Marker("tool_calls"), "[{", Marker("index"), Decimal(index),
                    "," + Marker("type") + "\"function\"", "," + Marker("function") + "{" + Marker("name"), name,
                    "," + Marker("arguments") + "\"\"", "}", "}]", "]}");
  }
}
