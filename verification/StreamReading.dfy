/** What a chat completion stream says, read event by event without any notion of
    content-block indices or of which blocks are open on the client's side. This
    is the reference the Anthropic translator is proved against. */
module StreamReading {
  import opened Text
  import opened AnthropicClient

  /** `index` defaults to 0 when the upstream leaves it out. */
  datatype ToolDelta = ToolDelta(index: int, id: string, name: string, arguments: string)

  /** One snapshot of a hosted web search: `id` is its identity, `input` the JSON of
      its query and `hits` its rendered result. */
  datatype SearchItem = SearchItem(id: string, input: string, hits: string)

  datatype Choice = Choice(
    reasoningId: string, thinking: string, signature: string, reasoningDone: bool,
    search: Option<SearchItem>, searchDone: bool,
    content: string, refusal: string,
    toolCalls: seq<ToolDelta>, citations: seq<string>,
    stopSequence: string, finishReason: string)

  datatype Event = Done | Undecodable | UpstreamError | ReadError | Chunk(choices: seq<Choice>)

  datatype Fault = NoFinishReason | InvalidChunk | UpstreamFailure | ReadFailure | InvalidToolStart | DuplicateToolId | ClosedEarly

  /** One named reasoning item: its text, its signature once seen, and whether a
      signed item has been left behind, after which nothing may be added to it. */
  datatype Thought = Thought(text: string, signature: Option<string>, closed: bool)

  /** One stretch of reasoning that belongs to no named item: its text, and its signature
      once seen. */
  datatype Stretch = Stretch(text: string, signatures: seq<string>)

  datatype ToolText = ToolText(id: string, name: string, arguments: string)

  /** `open` says that further text joins the text before it. */
  datatype Prose = Prose(text: string, cites: seq<string>, open: bool)

  /** All thinking and signatures in arrival order, each named item's share, and the
      stretches that belong to no item. */
  datatype Reasoning = Reasoning(
    thinking: string, signatures: seq<string>, thoughts: map<string, Thought>,
    current: string, anonymousOpen: bool, anonymousSigned: bool, stretches: seq<Stretch>)

  datatype Ending = Ending(stopReason: string, stopSequence: string, terminal: bool, ended: bool, fault: Option<Fault>)

  /** `kinds` are the blocks in the order they are begun. */
  datatype Reading = Reading(
    kinds: seq<Kind>, prose: Prose, reasoning: Reasoning,
    tools: map<int, ToolText>, searches: map<string, Option<SearchItem>>, ending: Ending)

  const Blank := Reading([], Prose("", [], false), Reasoning("", [], map[], "", false, false, []), map[], map[],
                         Ending("", "", false, false, None))

  function FinishToAnthropic(value: string): string {
    var reason := Lower(Trim(value));
    if reason == "tool_calls" || reason == "tool_use" then "tool_use"
    else if reason == "length" || reason == "max_tokens" then "max_tokens"
    else if reason == "content_filter" || reason == "refusal" then "refusal"
    else "end_turn"
  }

  /** Something else takes over from the reasoning in progress: an anonymous item
      is over, a signed one is over, an unsigned named one waits for its signature. */
  function LeaveReasoning(m: Reasoning): Reasoning {
    var thoughts :=
      if m.current in m.thoughts && m.thoughts[m.current].signature.Some?
      then m.thoughts[m.current := m.thoughts[m.current].(closed := true)] else m.thoughts;
    m.(anonymousOpen := false, anonymousSigned := false, thoughts := thoughts)
  }

  function Leave(r: Reading): Reading { r.(reasoning := LeaveReasoning(r.reasoning)) }

  function EndText(r: Reading): Reading { r.(prose := r.prose.(open := false)) }

  function SwitchReasoning(r: Reading, id: string): Reading {
    if id == "" || id == r.reasoning.current then r
    else r.(reasoning := LeaveReasoning(r.reasoning).(current := id))
  }

  /** Does reasoning that arrives now begin a block of its own? */
  predicate BeginsItem(m: Reasoning) {
    if m.current == "" then !m.anonymousOpen else m.current !in m.thoughts
  }

  function BeginItem(r: Reading): Reading {
    var m := r.reasoning;
    if !BeginsItem(m) then r
    else if m.current == "" then
      r.(kinds := r.kinds + [ThinkingBlock], reasoning := m.(anonymousOpen := true, stretches := m.stretches + [Stretch("", [])]))
    else r.(kinds := r.kinds + [ThinkingBlock], reasoning := m.(thoughts := m.thoughts[m.current := Thought("", None, false)]))
  }

  /** Changes the last stretch. */
  function Lengthened(stretches: seq<Stretch>, text: string, signatures: seq<string>): seq<Stretch> {
    if stretches == [] then []
    else
      var n := |stretches| - 1;
      stretches[..n] + [Stretch(stretches[n].text + text, stretches[n].signatures + signatures)]
  }

  function AddThinking(m: Reasoning, s: string): Reasoning {
    if m.current !in m.thoughts then m.(thinking := m.thinking + s, stretches := Lengthened(m.stretches, s, []))
    else
      var t := m.thoughts[m.current];
      if t.closed then m
      else m.(thinking := m.thinking + s, thoughts := m.thoughts[m.current := t.(text := t.text + s)])
  }

  /** Only the first signature of an item counts. */
  function AddSignature(m: Reasoning, s: string): Reasoning {
    if m.current !in m.thoughts then
      if m.anonymousSigned then m else m.(anonymousSigned := true, signatures := m.signatures + [s], stretches := Lengthened(m.stretches, "", [s]))
    else
      var t := m.thoughts[m.current];
      if t.signature.Some? then m
      else m.(signatures := m.signatures + [s], thoughts := m.thoughts[m.current := t.(signature := Some(s))])
  }

  function Think(r: Reading, s: string): Reading {
    if s == "" then r
    else var b := BeginItem(EndText(r)); b.(reasoning := AddThinking(b.reasoning, s))
  }

  function Sign(r: Reading, s: string): Reading {
    if s == "" then r
    else var b := BeginItem(r); b.(reasoning := AddSignature(b.reasoning, s))
  }

  function BeginText(r: Reading): Reading {
    if r.prose.open then r else r.(kinds := r.kinds + [TextBlock], prose := r.prose.(open := true))
  }

  function Write(r: Reading, s: string): Reading {
    if s == "" then r
    else var b := BeginText(Leave(r)); b.(prose := b.prose.(text := b.prose.text + s))
  }

  /** A refusal is written as text; it only overrides an end_turn already read. */
  function Refuse(r: Reading, s: string): Reading {
    if s == "" then r
    else
      var w := Write(r, s);
      if w.ending.stopReason == "end_turn" then w.(ending := w.ending.(stopReason := "refusal")) else w
  }

  predicate Blankish(s: string) { s == "" || s == "<nil>" }

  predicate IdTaken(tools: map<int, ToolText>, id: string) { exists i :: i in tools && tools[i].id == id }

  function Fail(r: Reading, f: Fault): Reading { r.(ending := r.ending.(fault := Some(f))) }

  function CallTool(r: Reading, t: ToolDelta): Reading {
    if r.ending.fault.Some? then r
    else if t.index in r.tools then
      var known := r.tools[t.index];
      r.(tools := r.tools[t.index := known.(arguments := known.arguments + t.arguments)])
    else
      var left := Leave(EndText(r));
      if Blankish(t.id) || Blankish(t.name) then Fail(left, InvalidToolStart)
      else if IdTaken(r.tools, t.id) then Fail(left, DuplicateToolId)
      else left.(kinds := left.kinds + [ToolBlock(t.id, t.name)],
                 tools := left.tools[t.index := ToolText(t.id, t.name, t.arguments)])
  }

  function CallTools(r: Reading, calls: seq<ToolDelta>): Reading {
    if calls == [] then r else CallTool(CallTools(r, calls[..|calls| - 1]), calls[|calls| - 1])
  }

  function BeginSearch(r: Reading, id: string): Reading {
    if id in r.searches then r
    else
      var left := Leave(EndText(r));
      left.(kinds := left.kinds + [SearchBlock(id)], searches := left.searches[id := None])
  }

  function EndSearch(r: Reading, item: SearchItem): Reading {
    r.(kinds := r.kinds + [SearchResult(item.id, item.hits)], searches := r.searches[item.id := Some(item)])
  }

  function Search(r: Reading, item: SearchItem, done: bool): Reading {
    if item.id in r.searches && r.searches[item.id].Some? then r
    else if done then EndSearch(BeginSearch(r, item.id), item)
    else BeginSearch(r, item.id)
  }

  function Cite(r: Reading, citation: string): Reading {
    if citation in r.prose.cites then r
    else
      var b := if r.prose.open then r else BeginText(Leave(r));
      b.(prose := b.prose.(cites := b.prose.cites + [citation]))
  }

  function CiteAll(r: Reading, citations: seq<string>): Reading {
    if citations == [] then r else Cite(CiteAll(r, citations[..|citations| - 1]), citations[|citations| - 1])
  }

  /** The part of a choice that precedes its tool calls. */
  function ReadProse(r: Reading, c: Choice): Reading {
    var r1 := Sign(Think(SwitchReasoning(r, c.reasoningId), c.thinking), c.signature);
    var r2 := if c.reasoningDone then Leave(r1) else r1;
    var r3 := if c.search.Some? then Search(r2, c.search.value, c.searchDone) else r2;
    Refuse(Write(r3, c.content), c.refusal)
  }

  /** The part of a choice that follows its tool calls. */
  function ReadTail(r: Reading, c: Choice): Reading {
    var r1 := CiteAll(r, c.citations);
    var e := if c.stopSequence != "" then r1.ending.(stopSequence := c.stopSequence) else r1.ending;
    r1.(ending := if Blankish(c.finishReason) then e
                  else e.(stopReason := FinishToAnthropic(c.finishReason), terminal := true))
  }

  function ReadChoice(r: Reading, c: Choice): Reading {
    var called := CallTools(ReadProse(r, c), c.toolCalls);
    if called.ending.fault.Some? then called else ReadTail(called, c)
  }

  function ReadChoices(r: Reading, choices: seq<Choice>): Reading {
    if choices == [] then r
    else
      var before := ReadChoices(r, choices[..|choices| - 1]);
      if before.ending.fault.Some? then before else ReadChoice(before, choices[|choices| - 1])
  }

  function ReadEvent(r: Reading, e: Event): Reading {
    if r.ending.ended || r.ending.fault.Some? then r
    else match e
      case Done => if r.ending.terminal then r.(ending := r.ending.(ended := true)) else Fail(r, NoFinishReason)
      case Undecodable => Fail(r, InvalidChunk)
      case UpstreamError => Fail(r, UpstreamFailure)
      case ReadError => Fail(r, ReadFailure)
      case Chunk(choices) => ReadChoices(r, choices)
  }

  function ReadEvents(events: seq<Event>): Reading {
    if events == [] then Blank else ReadEvent(ReadEvents(events[..|events| - 1]), events[|events| - 1])
  }

  /** The reading of a whole stream: one that was never finished is a fault. */
  function Read(events: seq<Event>): Reading {
    var r := ReadEvents(events);
    if r.ending.fault.None? && !r.ending.terminal then Fail(r, ClosedEarly) else r
  }

  function FinalStopReason(e: Ending): string {
    if e.stopSequence != "" then "stop_sequence" else e.stopReason
  }
}
