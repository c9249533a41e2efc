/** Reasoning, tool calls and searches keep the client linked to the reading. */
module StreamReasoningProof {
  import opened Text
  import opened AnthropicClient
  import opened StreamReading
  import opened StreamState
  import opened StreamLinks
  import opened StreamProof

  /** The relations of every sort but thinking survive a change to a thinking block. */
  lemma OnlyThinking(s: State, a: seq<Block>, b: seq<Block>, r: Reading)
    requires ToolsLinked(s.tools, a, r.tools) && SearchesLinked(s.searches, a, r.searches)
    requires TextLinked(s.textIndex, s.citations, a, r.prose)
    requires forall sort :: sort != ThinkingSort ==> Untouched(a, b, sort)
    ensures ToolsLinked(s.tools, b, r.tools) && SearchesLinked(s.searches, b, r.searches)
    ensures TextLinked(s.textIndex, s.citations, b, r.prose)
  {
    ToolsUntouched(s.tools, a, b, r.tools);
    SearchesUntouched(s.searches, a, b, r.searches);
    TextUntouched(s.textIndex, s.citations, a, b, r.prose);
  }

  /** A named item either has its block attached, or is closed for good. */
  ghost predicate Attached(m: Mind, r: Reasoning) {
    m.thinkIndex >= 0 || (r.current in r.thoughts && r.thoughts[r.current].closed)
  }

  lemma NamedBegun(m: Mind, a: seq<Block>, r: Reasoning)
    requires ThoughtsLinked(m, a, r) && ThinkingLinked(m, a, r)
    requires m.thinkIndex < 0 && m.reasoningID != "" && m.reasoningID !in m.indexes
    ensures var n := Mind(|a|, m.reasoningID, m.indexes[m.reasoningID := |a|], m.signed);
            var b := a + [Block(ThinkingBlock, "", [], [], true)];
            var q := r.(thoughts := r.thoughts[r.current := Thought("", None, false)]);
            ThoughtsLinked(n, b, q) && ThinkingLinked(n, b, q)
  {
    var b := a + [Block(ThinkingBlock, "", [], [], true)];
    LooseNamed(a, m.indexes, m.reasoningID, b[|a|]);
    forall k | k in m.indexes
      ensures Carries(b[m.indexes[k]], r.thoughts[k]) && m.indexes[k] < |a|
      ensures r.thoughts[k].signature.Some? ==> r.thoughts[k].closed
    {
      assert Carries(a[m.indexes[k]], r.thoughts[k]);
    }
  }

  lemma AnonymousBegun(m: Mind, a: seq<Block>, r: Reasoning)
    requires ThoughtsLinked(m, a, r) && ThinkingLinked(m, a, r)
    requires m.thinkIndex < 0 && m.reasoningID == ""
    ensures var n := Mind(|a|, m.reasoningID, m.indexes, m.signed);
            var b := a + [Block(ThinkingBlock, "", [], [], true)];
            var q := r.(anonymousOpen := true, stretches := r.stretches + [Stretch("", [])]);
            ThoughtsLinked(n, b, q) && ThinkingLinked(n, b, q)
  {
    LooseAdded(a, m.indexes, Block(ThinkingBlock, "", [], [], true));
    forall k | k in m.indexes
      ensures r.thoughts[k].signature.Some? ==> r.thoughts[k].closed
    {
      assert Carries(a[m.indexes[k]], r.thoughts[k]);
    }
  }

  lemma BeginKeeps(s: State, r: Reading)
    requires Linked(s, r) && s.mind.thinkIndex < 0 && (s.mind.reasoningID == "" || s.mind.reasoningID !in s.mind.indexes)
    ensures Linked(AttachThinking(s), BeginItem(r)) && Attached(AttachThinking(s).mind, BeginItem(r).reasoning)
    ensures AttachThinking(s).mind.reasoningID == s.mind.reasoningID
    ensures !BeginsItem(BeginItem(r).reasoning)
  {
    var c, m := Play(s.wire.sent), s.mind;
    StartedBlock(s.wire, ThinkingBlock, r.kinds);
    if m.reasoningID == "" {
      AnonymousBegun(m, c.blocks, r.reasoning);
    } else {
      NamedBegun(m, c.blocks, r.reasoning);
    }
    OnlyThinking(s, c.blocks, Play(AttachThinking(s).wire.sent).blocks, r);
  }

  lemma AttachKeeps(s: State, r: Reading)
    requires Linked(s, r)
    ensures Linked(AttachThinking(s), BeginItem(r)) && Attached(AttachThinking(s).mind, BeginItem(r).reasoning)
    ensures AttachThinking(s).mind.reasoningID == s.mind.reasoningID
    ensures !BeginsItem(BeginItem(r).reasoning)
  {
    var c, m := Play(s.wire.sent), s.mind;
    if m.thinkIndex < 0 {
      if m.reasoningID != "" && m.reasoningID in m.indexes {
        assert Carries(c.blocks[m.indexes[m.reasoningID]], r.reasoning.thoughts[m.reasoningID]);
      } else {
        BeginKeeps(s, r);
      }
    }
  }

  lemma ThinkingAdded(m: Mind, a: seq<Block>, r: Reasoning, value: string)
    requires ThoughtsLinked(m, a, r) && ThinkingLinked(m, a, r) && m.thinkIndex >= 0
    ensures ThoughtsLinked(m, a[m.thinkIndex := Extend(a[m.thinkIndex], ThinkingDelta(value))], AddThinking(r, value))
    ensures AddThinking(r, value).thinking == r.thinking + value && AddThinking(r, value).signatures == r.signatures
  {
    var q := AddThinking(r, value);
    var b := a[m.thinkIndex := Extend(a[m.thinkIndex], ThinkingDelta(value))];
    forall k | k in m.indexes
      ensures k in q.thoughts && Carries(b[m.indexes[k]], q.thoughts[k])
      ensures q.thoughts[k].signature == r.thoughts[k].signature && q.thoughts[k].closed == r.thoughts[k].closed
    {
      ThinkingCarried(m, a, r, value, k);
    }
  }

  lemma ThinkingCarried(m: Mind, a: seq<Block>, r: Reasoning, value: string, k: string)
    requires ThoughtsLinked(m, a, r) && ThinkingLinked(m, a, r) && m.thinkIndex >= 0 && k in m.indexes
    ensures var q, b := AddThinking(r, value), a[m.thinkIndex := Extend(a[m.thinkIndex], ThinkingDelta(value))];
      && k in q.thoughts && Carries(b[m.indexes[k]], q.thoughts[k])
      && q.thoughts[k].signature == r.thoughts[k].signature && q.thoughts[k].closed == r.thoughts[k].closed
  {
    assert Carries(a[m.indexes[k]], r.thoughts[k]);
  }

  lemma StillThinking(m: Mind, a: seq<Block>, r: Reasoning, value: string)
    requires ThoughtsLinked(m, a, r) && ThinkingLinked(m, a, r) && m.thinkIndex >= 0
    ensures ThinkingLinked(m, a[m.thinkIndex := Extend(a[m.thinkIndex], ThinkingDelta(value))], AddThinking(r, value))
  {
    StretchGrows(m, a, r, ThinkingDelta(value), AddThinking(r, value));
  }

  /** A delta for the open stretch lengthens it; one for an item leaves the stretches alone. */
  lemma StretchGrows(m: Mind, a: seq<Block>, r: Reasoning, d: Delta, q: Reasoning)
    requires ThoughtsLinked(m, a, r) && ThinkingLinked(m, a, r) && m.thinkIndex >= 0
    requires d.ThinkingDelta? || d.SignatureDelta?
    requires q.anonymousOpen == r.anonymousOpen
    requires q.stretches == if m.reasoningID != "" then r.stretches
      else Lengthened(r.stretches, if d.ThinkingDelta? then d.thinking else "", if d.SignatureDelta? then [d.signature] else [])
    ensures LooseLinked(m, a[m.thinkIndex := Extend(a[m.thinkIndex], d)], q)
  {
    var block := Extend(a[m.thinkIndex], d);
    if m.reasoningID != "" {
      assert IsNamed(m.indexes, m.thinkIndex);
      LooseKept(a, m.indexes, m.thinkIndex, block);
    } else {
      assert !IsNamed(m.indexes, m.thinkIndex);
      assert block.body + "" == block.body && a[m.thinkIndex].sigs + [] == a[m.thinkIndex].sigs;
      LooseLengthened(m, a, r, block, if d.ThinkingDelta? then d.thinking else "", if d.SignatureDelta? then [d.signature] else []);
    }
  }

  lemma SignatureAdded(m: Mind, a: seq<Block>, r: Reasoning, value: string)
    requires ThoughtsLinked(m, a, r) && ThinkingLinked(m, a, r) && m.thinkIndex >= 0 && m.thinkIndex !in m.signed
    ensures ThoughtsLinked(m.(signed := m.signed + {m.thinkIndex}), a[m.thinkIndex := Extend(a[m.thinkIndex], SignatureDelta(value))],
                           AddSignature(r, value))
    ensures AddSignature(r, value).signatures == r.signatures + [value] && AddSignature(r, value).thinking == r.thinking
  {
    var q := AddSignature(r, value);
    var b := a[m.thinkIndex := Extend(a[m.thinkIndex], SignatureDelta(value))];
    forall k | k in m.indexes
      ensures k in q.thoughts && Carries(b[m.indexes[k]], q.thoughts[k])
      ensures q.thoughts[k].signature.Some? && !q.thoughts[k].closed ==> m.indexes[k] == m.thinkIndex
    {
      SignatureCarried(m, a, r, value, k);
    }
  }

  lemma SignatureCarried(m: Mind, a: seq<Block>, r: Reasoning, value: string, k: string)
    requires ThoughtsLinked(m, a, r) && ThinkingLinked(m, a, r) && m.thinkIndex >= 0 && m.thinkIndex !in m.signed && k in m.indexes
    ensures var q, b := AddSignature(r, value), a[m.thinkIndex := Extend(a[m.thinkIndex], SignatureDelta(value))];
      && k in q.thoughts && Carries(b[m.indexes[k]], q.thoughts[k])
      && (q.thoughts[k].signature.Some? && !q.thoughts[k].closed ==> m.indexes[k] == m.thinkIndex)
  {
    assert Carries(a[m.indexes[k]], r.thoughts[k]);
  }

  lemma NowSigned(m: Mind, a: seq<Block>, r: Reasoning, value: string)
    requires ThoughtsLinked(m, a, r) && ThinkingLinked(m, a, r) && m.thinkIndex >= 0 && m.thinkIndex !in m.signed
    ensures ThinkingLinked(m.(signed := m.signed + {m.thinkIndex}), a[m.thinkIndex := Extend(a[m.thinkIndex], SignatureDelta(value))],
                           AddSignature(r, value))
  {
    if m.reasoningID in m.indexes {
      assert Carries(a[m.indexes[m.reasoningID]], r.thoughts[m.reasoningID]);
    }
    StretchGrows(m, a, r, SignatureDelta(value), AddSignature(r, value));
  }

  /** A signature for an item that has one is dropped. */
  lemma SignatureDropped(m: Mind, a: seq<Block>, r: Reasoning, value: string)
    requires ThoughtsLinked(m, a, r) && ThinkingLinked(m, a, r) && Attached(m, r) && !BeginsItem(r)
    requires m.thinkIndex < 0 || m.thinkIndex in m.signed
    ensures AddSignature(r, value) == r
  {
    if m.reasoningID in m.indexes {
      assert Carries(a[m.indexes[m.reasoningID]], r.thoughts[m.reasoningID]);
    }
  }

  lemma SendThinkingKeeps(s: State, r: Reading, value: string)
    requires Linked(s, r) && Attached(s.mind, r.reasoning) && !BeginsItem(r.reasoning)
    ensures Linked(SendThinking(s, value), r.(reasoning := AddThinking(r.reasoning, value)))
  {
    var c, m := Play(s.wire.sent), s.mind;
    if m.thinkIndex >= 0 {
      ExtendedBlock(s.wire, m.thinkIndex, ThinkingDelta(value), r.kinds);
      ThinkingAdded(m, c.blocks, r.reasoning, value);
      StillThinking(m, c.blocks, r.reasoning, value);
      OnlyThinking(s, c.blocks, Play(SendThinking(s, value).wire.sent).blocks, r);
    }
  }

  lemma SendSignatureKeeps(s: State, r: Reading, value: string)
    requires Linked(s, r) && Attached(s.mind, r.reasoning) && !BeginsItem(r.reasoning)
    ensures Linked(SendSignature(s, value), r.(reasoning := AddSignature(r.reasoning, value)))
  {
    var c, m := Play(s.wire.sent), s.mind;
    if m.thinkIndex < 0 || m.thinkIndex in m.signed {
      SignatureDropped(m, c.blocks, r.reasoning, value);
    } else {
      ExtendedBlock(s.wire, m.thinkIndex, SignatureDelta(value), r.kinds);
      SignatureAdded(m, c.blocks, r.reasoning, value);
      NowSigned(m, c.blocks, r.reasoning, value);
      OnlyThinking(s, c.blocks, Play(SendSignature(s, value).wire.sent).blocks, r);
    }
  }

  lemma WriteThinkingKeeps(s: State, r: Reading, value: string)
    requires Linked(s, r) && value != ""
    ensures Linked(WriteThinking(s, value), Think(r, value))
  {
    CloseTextKeeps(s, r);
    AttachKeeps(CloseText(s), EndText(r));
    SendThinkingKeeps(AttachThinking(CloseText(s)), BeginItem(EndText(r)), value);
  }

  lemma WriteSignatureKeeps(s: State, r: Reading, value: string)
    requires Linked(s, r) && value != ""
    ensures Linked(WriteSignature(s, value), Sign(r, value))
  {
    AttachKeeps(s, r);
    SendSignatureKeeps(AttachThinking(s), BeginItem(r), value);
  }

  lemma SetReasoningKeeps(s: State, r: Reading, key: string)
    requires Linked(s, r)
    ensures Linked(SetReasoning(s, key), SwitchReasoning(r, key))
  {
    if key != "" && key != s.mind.reasoningID {
      DetachKeeps(s, r);
      var d, l := DetachThinking(s), Leave(r);
      var b := Play(d.wire.sent).blocks;
      assert forall k :: k in d.mind.indexes ==> Carries(b[d.mind.indexes[k]], l.reasoning.thoughts[k]);
    }
  }

  // ---- tool calls ----

  lemma OnlyTool(s: State, a: seq<Block>, b: seq<Block>, r: Reading)
    requires SearchesLinked(s.searches, a, r.searches) && TextLinked(s.textIndex, s.citations, a, r.prose)
    requires ThoughtsLinked(s.mind, a, r.reasoning) && ThinkingLinked(s.mind, a, r.reasoning)
    requires forall sort :: sort != ToolSort ==> Untouched(a, b, sort)
    ensures SearchesLinked(s.searches, b, r.searches) && TextLinked(s.textIndex, s.citations, b, r.prose)
    ensures ThoughtsLinked(s.mind, b, r.reasoning) && ThinkingLinked(s.mind, b, r.reasoning)
  {
    SearchesUntouched(s.searches, a, b, r.searches);
    TextUntouched(s.textIndex, s.citations, a, b, r.prose);
    ReasoningUntouched(s.mind, a, b, r.reasoning);
  }

  lemma TakenIds(t: Tools, a: seq<Block>, tools: map<int, ToolText>, id: string)
    requires ToolsLinked(t, a, tools)
    ensures id in t.ids <==> IdTaken(tools, id)
  {
    if id in t.ids {
      var i := t.ids[id];
      assert i in tools && tools[i].id == id;
      assert IdTaken(tools, id);
    }
  }

  lemma ToolStarted(t: Tools, a: seq<Block>, tools: map<int, ToolText>, d: ToolDelta)
    requires ToolsLinked(t, a, tools) && d.index !in t.indexes && d.id !in t.ids
    ensures ToolsLinked(Tools(t.indexes[d.index := |a|], t.ids[d.id := d.index]),
                        a + [Block(ToolBlock(d.id, d.name), "", [], [], true)], tools[d.index := ToolText(d.id, d.name, "")])
  {
  }

  lemma ToolExtended(t: Tools, a: seq<Block>, tools: map<int, ToolText>, i: int, arguments: string)
    requires ToolsLinked(t, a, tools) && i in t.indexes
    ensures ToolsLinked(t, a[t.indexes[i] := Extend(a[t.indexes[i]], JsonDelta(arguments))],
                        tools[i := tools[i].(arguments := tools[i].arguments + arguments)])
  {
    var b := a[t.indexes[i] := Extend(a[t.indexes[i]], JsonDelta(arguments))];
    var more := tools[i := tools[i].(arguments := tools[i].arguments + arguments)];
    forall j | j in t.indexes
      ensures IsOpen(b, t.indexes[j]) && b[t.indexes[j]].kind == ToolBlock(more[j].id, more[j].name)
      ensures b[t.indexes[j]].body == more[j].arguments && more[j].id == tools[j].id
    {
      assert j == i || t.indexes[j] != t.indexes[i];
    }
    assert forall k :: 0 <= k < |b| ==> b[k].kind == a[k].kind;
  }

  lemma StartToolKeeps(s: State, r: Reading, t: ToolDelta)
    requires Linked(s, r) && t.index !in s.tools.indexes && t.id !in s.tools.ids
    ensures Linked(StartTool(s, t), r.(kinds := r.kinds + [ToolBlock(t.id, t.name)], tools := r.tools[t.index := ToolText(t.id, t.name, "")]))
  {
    var c := Play(s.wire.sent);
    StartedBlock(s.wire, ToolBlock(t.id, t.name), r.kinds);
    ToolStarted(s.tools, c.blocks, r.tools, t);
    OnlyTool(s, c.blocks, Play(StartTool(s, t).wire.sent).blocks, r);
  }

  /** The reading after more argument text for a known tool call. */
  function MoreArguments(r: Reading, t: ToolDelta): Reading
    requires t.index in r.tools
  {
    var known := r.tools[t.index];
    r.(tools := r.tools[t.index := known.(arguments := known.arguments + t.arguments)])
  }

  lemma SentArgumentsKeep(s: State, r: Reading, t: ToolDelta)
    requires Linked(s, r) && t.index in s.tools.indexes && t.arguments != ""
    ensures Linked(SendArguments(s, t), MoreArguments(r, t))
  {
    var c := Play(s.wire.sent);
    ExtendedBlock(s.wire, s.tools.indexes[t.index], JsonDelta(t.arguments), r.kinds);
    ToolExtended(s.tools, c.blocks, r.tools, t.index, t.arguments);
    OnlyTool(s, c.blocks, Play(SendArguments(s, t).wire.sent).blocks, r);
  }

  lemma SendArgumentsKeeps(s: State, r: Reading, t: ToolDelta)
    requires Linked(s, r) && t.index in s.tools.indexes
    ensures Linked(SendArguments(s, t), MoreArguments(r, t))
  {
    if t.arguments == "" {
      assert r.tools[t.index].arguments + "" == r.tools[t.index].arguments;
      assert MoreArguments(r, t).tools == r.tools;
    } else {
      SentArgumentsKeep(s, r, t);
    }
  }

  lemma KnownToolKeeps(s: State, r: Reading, t: ToolDelta)
    requires Linked(s, r) && r.ending.fault.None? && t.index in s.tools.indexes
    ensures Linked(WriteToolCall(s, t), CallTool(r, t))
  {
    SendArgumentsKeeps(s, r, t);
  }

  /** The reading right after a new tool call was announced. */
  function ToolAnnounced(r: Reading, t: ToolDelta): Reading {
    var l := Leave(EndText(r));
    l.(kinds := l.kinds + [ToolBlock(t.id, t.name)], tools := l.tools[t.index := ToolText(t.id, t.name, "")])
  }

  lemma NewToolRead(r: Reading, t: ToolDelta)
    requires r.ending.fault.None? && t.index !in r.tools && !Blankish(t.id) && !Blankish(t.name) && !IdTaken(r.tools, t.id)
    ensures CallTool(r, t) == MoreArguments(ToolAnnounced(r, t), t) && CallTool(r, t).ending.fault.None?
  {
    assert "" + t.arguments == t.arguments;
    assert MoreArguments(ToolAnnounced(r, t), t).tools == CallTool(r, t).tools;
  }

  lemma NewToolKeeps(s: State, r: Reading, t: ToolDelta)
    requires Linked(s, r) && r.ending.fault.None? && t.index !in s.tools.indexes && ToolFault(s, t).None?
    ensures Linked(WriteToolCall(s, t), CallTool(r, t)) && CallTool(r, t).ending.fault.None?
  {
    TakenIds(s.tools, Play(s.wire.sent).blocks, r.tools, t.id);
    NewToolRead(r, t);
    CloseTextualKeeps(s, r);
    StartToolKeeps(CloseTextualBlocks(s), Leave(EndText(r)), t);
    SendArgumentsKeeps(StartTool(CloseTextualBlocks(s), t), ToolAnnounced(r, t), t);
  }

  /** A bad start is reported after the textual blocks are closed. */
  lemma BadToolKeeps(s: State, r: Reading, t: ToolDelta)
    requires Linked(s, r) && r.ending.fault.None? && ToolFault(s, t).Some?
    ensures Linked(WriteToolCall(s, t), CallTool(r, t)) && CallTool(r, t).ending.fault == ToolFault(s, t)
  {
    CloseTextualKeeps(s, r);
    TakenIds(s.tools, Play(s.wire.sent).blocks, r.tools, t.id);
  }

  lemma WriteToolCallKeeps(s: State, r: Reading, t: ToolDelta)
    requires Linked(s, r) && r.ending.fault.None?
    ensures ToolFault(s, t) == CallTool(r, t).ending.fault
    ensures Linked(WriteToolCall(s, t), CallTool(r, t))
  {
    if ToolFault(s, t).Some? {
      BadToolKeeps(s, r, t);
    } else if t.index in s.tools.indexes {
      KnownToolKeeps(s, r, t);
    } else {
      NewToolKeeps(s, r, t);
    }
  }

  // ---- searches ----

  lemma OnlySearch(s: State, a: seq<Block>, b: seq<Block>, r: Reading)
    requires ToolsLinked(s.tools, a, r.tools) && TextLinked(s.textIndex, s.citations, a, r.prose)
    requires ThoughtsLinked(s.mind, a, r.reasoning) && ThinkingLinked(s.mind, a, r.reasoning)
    requires forall sort :: sort != SearchSort ==> Untouched(a, b, sort)
    ensures ToolsLinked(s.tools, b, r.tools) && TextLinked(s.textIndex, s.citations, b, r.prose)
    ensures ThoughtsLinked(s.mind, b, r.reasoning) && ThinkingLinked(s.mind, b, r.reasoning)
  {
    ToolsUntouched(s.tools, a, b, r.tools);
    TextUntouched(s.textIndex, s.citations, a, b, r.prose);
    ReasoningUntouched(s.mind, a, b, r.reasoning);
  }

  lemma SearchStarted(searches: map<string, SearchState>, a: seq<Block>, found: map<string, Option<SearchItem>>, id: string)
    requires SearchesLinked(searches, a, found) && id !in searches
    ensures SearchesLinked(searches[id := SearchState(|a|, false)], a + [Block(SearchBlock(id), "", [], [], true)], found[id := None])
  {
  }

  lemma SearchFinished(searches: map<string, SearchState>, a: seq<Block>, b: seq<Block>, found: map<string, Option<SearchItem>>, item: SearchItem)
    requires SearchesLinked(searches, a, found) && item.id in searches
    requires var i := searches[item.id].index;
             && |b| == |a| + 1 && b[i].kind == SearchBlock(item.id) && b[i].body == item.input && !b[i].open
             && forall k :: 0 <= k < |a| && k != i ==> b[k] == a[k]
    ensures SearchesLinked(searches[item.id := SearchState(searches[item.id].index, true)], b, found[item.id := Some(item)])
  {
  }

  lemma NewSearchKeeps(t: State, l: Reading, id: string)
    requires Linked(t, l) && id !in t.searches
    ensures Linked(t.(wire := StartBlock(t.wire, SearchBlock(id)), searches := t.searches[id := SearchState(t.wire.nextIndex, false)]),
                   l.(kinds := l.kinds + [SearchBlock(id)], searches := l.searches[id := None]))
  {
    var a := Play(t.wire.sent).blocks;
    StartedBlock(t.wire, SearchBlock(id), l.kinds);
    SearchStarted(t.searches, a, l.searches, id);
    OnlySearch(t, a, Play(StartBlock(t.wire, SearchBlock(id)).sent).blocks, l);
  }

  lemma OpenSearchKeeps(s: State, r: Reading, id: string)
    requires Linked(s, r)
    ensures Linked(OpenSearch(s, id), BeginSearch(r, id))
  {
    if id !in s.searches {
      CloseTextualKeeps(s, r);
      NewSearchKeeps(CloseTextualBlocks(s), Leave(EndText(r)), id);
    }
  }

  /** The four frames that finish a search: its input, its end, and its result block. */
  lemma FinishedBlocks(w0: Wire, i: int, item: SearchItem, kinds: seq<Kind>)
    requires Play(w0.sent).phase == Streaming && Indexed(w0, Play(w0.sent).blocks, kinds)
    requires IsOpen(Play(w0.sent).blocks, i) && Play(w0.sent).blocks[i].kind == SearchBlock(item.id) && Play(w0.sent).blocks[i].body == ""
    ensures var w2 := CloseBlock(Emit(w0, BlockDelta(i, JsonDelta(item.input))), i);
            var w4 := CloseBlock(StartBlock(w2, SearchResult(item.id, item.hits)), w2.nextIndex);
            var c, d := Play(w0.sent), Play(w4.sent);
            var a, b := c.blocks, d.blocks;
            && d == c.(blocks := b)
            && Indexed(w4, b, kinds + [SearchResult(item.id, item.hits)])
            && |b| == |a| + 1 && b[i].kind == SearchBlock(item.id) && b[i].body == item.input && !b[i].open
            && (forall k :: 0 <= k < |a| && k != i ==> b[k] == a[k])
            && b[|a|].kind == SearchResult(item.id, item.hits)
            && forall sort :: sort != SearchSort ==> Untouched(a, b, sort)
  {
    var w1 := Emit(w0, BlockDelta(i, JsonDelta(item.input)));
    var w2 := CloseBlock(w1, i);
    var w3 := StartBlock(w2, SearchResult(item.id, item.hits));
    ExtendedBlock(w0, i, JsonDelta(item.input), kinds);
    StoppedBlock(w1, i, kinds);
    StartedBlock(w2, SearchResult(item.id, item.hits), kinds);
    StoppedBlock(w3, w2.nextIndex, kinds + [SearchResult(item.id, item.hits)]);
    assert "" + item.input == item.input;
  }

  lemma FinishSearchKeeps(s: State, r: Reading, item: SearchItem)
    requires Linked(s, r) && item.id in s.searches && !s.searches[item.id].done
    ensures Linked(FinishSearch(s, item, s.searches[item.id].index), EndSearch(r, item))
  {
    var i := s.searches[item.id].index;
    var a, b := Play(s.wire.sent).blocks, Play(FinishSearch(s, item, i).wire.sent).blocks;
    FinishedBlocks(s.wire, i, item, r.kinds);
    SearchFinished(s.searches, a, b, r.searches, item);
    OnlySearch(s, a, b, r);
  }

  lemma WriteSearchKeeps(s: State, r: Reading, item: SearchItem, done: bool)
    requires Linked(s, r)
    ensures Linked(WriteSearch(s, item, done), Search(r, item, done))
  {
    if !(item.id in s.searches && s.searches[item.id].done) {
      OpenSearchKeeps(s, r, item.id);
      if done {
        FinishSearchKeeps(OpenSearch(s, item.id), BeginSearch(r, item.id), item);
      }
    }
  }
}
