/** The translator's block bookkeeping as a value, and each operation as a function
    on that value. -1 stands for "no such block" in textIndex and thinkIndex. */
module StreamState {
  import opened Text
  import opened AnthropicClient
  import opened StreamReading

  /** `sent` lists every frame handed to the writer. */
  datatype Wire = Wire(sent: seq<Frame>, nextIndex: int, open: set<int>)

  datatype Mind = Mind(thinkIndex: int, reasoningID: string, indexes: map<string, int>, signed: set<int>)

  datatype Tools = Tools(indexes: map<int, int>, ids: map<string, int>)

  datatype SearchState = SearchState(index: int, done: bool)

  datatype State = State(wire: Wire, textIndex: int, citations: set<string>, mind: Mind, tools: Tools, searches: map<string, SearchState>)

  const Initial := State(Wire([], 0, {}), -1, {}, Mind(-1, "", map[], {}), Tools(map[], map[]), map[])

  function Emit(w: Wire, f: Frame): Wire { w.(sent := w.sent + [f]) }

  function StartBlock(w: Wire, kind: Kind): Wire {
    Wire(w.sent + [BlockStart(w.nextIndex, kind)], w.nextIndex + 1, w.open + {w.nextIndex})
  }

  function CloseBlock(w: Wire, index: int): Wire {
    if index !in w.open then w else Wire(w.sent + [BlockStop(index)], w.nextIndex, w.open - {index})
  }

  /** An anonymous or signed thinking block is over; an unsigned named one is parked. */
  predicate ThinkingOver(m: Mind) { m.thinkIndex >= 0 && (m.reasoningID == "" || m.thinkIndex in m.signed) }

  function DetachThinking(s: State): State {
    s.(wire := if ThinkingOver(s.mind) then CloseBlock(s.wire, s.mind.thinkIndex) else s.wire,
       mind := if s.mind.thinkIndex >= 0 then s.mind.(thinkIndex := -1) else s.mind)
  }

  function CloseText(s: State): State {
    if s.textIndex >= 0 then s.(wire := CloseBlock(s.wire, s.textIndex), textIndex := -1) else s
  }

  function CloseTextualBlocks(s: State): State { DetachThinking(CloseText(s)) }

  function OpenText(s: State): State {
    if s.textIndex < 0 then s.(wire := StartBlock(s.wire, TextBlock), textIndex := s.wire.nextIndex) else s
  }

  function SendText(s: State, text: string): State {
    s.(wire := Emit(s.wire, BlockDelta(s.textIndex, TextDelta(text))))
  }

  function WriteText(s: State, text: string): State { SendText(OpenText(DetachThinking(s)), text) }

  /** Makes the block of the current reasoning item the one being written; a closed
      one is not reopened, which leaves thinkIndex negative. */
  function AttachThinking(s: State): State {
    var m := s.mind;
    if m.thinkIndex >= 0 then s
    else if m.reasoningID in m.indexes && m.reasoningID != "" then
      if m.indexes[m.reasoningID] in s.wire.open then s.(mind := m.(thinkIndex := m.indexes[m.reasoningID])) else s
    else
      var i := s.wire.nextIndex;
      s.(wire := StartBlock(s.wire, ThinkingBlock),
         mind := Mind(i, m.reasoningID, if m.reasoningID != "" then m.indexes[m.reasoningID := i] else m.indexes, m.signed))
  }

  function SendThinking(s: State, value: string): State {
    if s.mind.thinkIndex < 0 then s
    else s.(wire := Emit(s.wire, BlockDelta(s.mind.thinkIndex, ThinkingDelta(value))))
  }

  function SendSignature(s: State, value: string): State {
    var m := s.mind;
    if m.thinkIndex < 0 || m.thinkIndex in m.signed then s
    else s.(wire := Emit(s.wire, BlockDelta(m.thinkIndex, SignatureDelta(value))), mind := m.(signed := m.signed + {m.thinkIndex}))
  }

  function WriteThinking(s: State, value: string): State { SendThinking(AttachThinking(CloseText(s)), value) }

  function WriteSignature(s: State, value: string): State { SendSignature(AttachThinking(s), value) }

  function SetReasoning(s: State, key: string): State {
    if key != "" && key != s.mind.reasoningID then
      var d := DetachThinking(s); d.(mind := d.mind.(reasoningID := key))
    else s
  }

  function ToolFault(s: State, t: ToolDelta): Option<Fault> {
    if t.index in s.tools.indexes then None
    else if Blankish(t.id) || Blankish(t.name) then Some(InvalidToolStart)
    else if t.id in s.tools.ids then Some(DuplicateToolId)
    else None
  }

  function StartTool(s: State, t: ToolDelta): State {
    s.(wire := StartBlock(s.wire, ToolBlock(t.id, t.name)),
       tools := Tools(s.tools.indexes[t.index := s.wire.nextIndex], s.tools.ids[t.id := t.index]))
  }

  /** On a fault the textual blocks are already closed. */
  function OpenTool(s: State, t: ToolDelta): State {
    if t.index in s.tools.indexes then s
    else if ToolFault(s, t).Some? then CloseTextualBlocks(s)
    else StartTool(CloseTextualBlocks(s), t)
  }

  function SendArguments(s: State, t: ToolDelta): State {
    if t.arguments == "" || t.index !in s.tools.indexes then s
    else s.(wire := Emit(s.wire, BlockDelta(s.tools.indexes[t.index], JsonDelta(t.arguments))))
  }

  function WriteToolCall(s: State, t: ToolDelta): State {
    if ToolFault(s, t).Some? then OpenTool(s, t) else SendArguments(OpenTool(s, t), t)
  }

  function OpenSearch(s: State, id: string): (r: State)
    ensures id in r.searches
  {
    if id in s.searches then s
    else
      var c := CloseTextualBlocks(s);
      c.(wire := StartBlock(c.wire, SearchBlock(id)), searches := c.searches[id := SearchState(c.wire.nextIndex, false)])
  }

  function FinishSearch(s: State, item: SearchItem, index: int): State {
    var w := CloseBlock(Emit(s.wire, BlockDelta(index, JsonDelta(item.input))), index);
    s.(wire := CloseBlock(StartBlock(w, SearchResult(item.id, item.hits)), w.nextIndex),
       searches := s.searches[item.id := SearchState(index, true)])
  }

  function WriteSearch(s: State, item: SearchItem, done: bool): State {
    if item.id in s.searches && s.searches[item.id].done then s
    else
      var t := OpenSearch(s, item.id);
      if !done then t else FinishSearch(t, item, t.searches[item.id].index)
  }

  function SendCitation(s: State, citation: string): State {
    s.(wire := Emit(s.wire, BlockDelta(s.textIndex, CitationDelta(citation))), citations := s.citations + {citation})
  }

  function WriteCitation(s: State, citation: string): State {
    if citation in s.citations then s
    else if s.textIndex < 0 then SendCitation(OpenText(CloseTextualBlocks(s)), citation)
    else SendCitation(s, citation)
  }

  function CloseAll(w: Wire, keys: seq<int>): Wire {
    if keys == [] then w else CloseBlock(CloseAll(w, keys[..|keys| - 1]), keys[|keys| - 1])
  }
}
