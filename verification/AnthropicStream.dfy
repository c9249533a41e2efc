/** The translator from a chat completion stream to an Anthropic message stream: it
    hands out content-block indices, keeps several blocks open at once, and parks a
    named thinking block until its signature arrives. */
module AnthropicStream {
  import opened Text
  import Sets
  import opened AnthropicClient
  import opened StreamReading
  import opened StreamState
  import opened StreamLinks
  import opened StreamRun
  import opened StreamSending
  import opened StreamEnding
  import opened StreamContent
  import opened StreamThoughts
  import opened StreamSearches

  datatype Failure = WriteFailed | StreamFailed(fault: Fault)

  /** The client assembled exactly what was read: the blocks begun, the text and the
      citations in order, every tool call's arguments in a block of its own, and
      every named reasoning item's text and signature in a block of its own. */
  ghost predicate Shows(c: Client, r: Reading) {
    && |c.blocks| == |r.kinds| && (forall i :: 0 <= i < |r.kinds| ==> c.blocks[i].kind == r.kinds[i])
    && Shown(c.blocks) == (r.prose.text, r.prose.cites)
    && c.thinking == r.reasoning.thinking && c.signatures == r.reasoning.signatures
    && (exists at: map<int, int> :: ToolsShown(at, c.blocks, r.tools))
    && (exists at: map<string, int> :: ThoughtsShown(at, c.blocks, r.reasoning.thoughts) && Loose(c.blocks, at) == r.reasoning.stretches)
    && (exists at: map<string, int> :: SearchesShown(at, c.blocks, r.searches))
  }

  ghost predicate ToolsShown(at: map<int, int>, blocks: seq<Block>, tools: map<int, ToolText>) {
    && at.Keys == tools.Keys
    && (forall i, j :: i in at && j in at && i != j ==> at[i] != at[j])
    && (forall i :: i in at ==>
          0 <= at[i] < |blocks| && blocks[at[i]].kind == ToolBlock(tools[i].id, tools[i].name) && blocks[at[i]].body == tools[i].arguments)
  }

  /** Every search has a block of its own, with its query once it is done. */
  ghost predicate SearchesShown(at: map<string, int>, blocks: seq<Block>, searches: map<string, Option<SearchItem>>) {
    && at.Keys == searches.Keys
    && (forall s :: s in at ==>
          && 0 <= at[s] < |blocks| && blocks[at[s]].kind == SearchBlock(s)
          && blocks[at[s]].body == if searches[s].Some? then searches[s].value.input else "")
  }

  ghost predicate ThoughtsShown(at: map<string, int>, blocks: seq<Block>, thoughts: map<string, Thought>) {
    && at.Keys == thoughts.Keys
    && (forall k, l :: k in at && l in at && k != l ==> at[k] != at[l])
    && (forall k :: k in at ==>
          && 0 <= at[k] < |blocks| && blocks[at[k]].kind.ThinkingBlock? && blocks[at[k]].body == thoughts[k].text
          && blocks[at[k]].sigs == if thoughts[k].signature.Some? then [thoughts[k].signature.value] else [])
  }

  class Translator {
    // The writer underneath: how many frames it accepts, what reached it, and
    // whether a write failed. After a failure nothing more is written.
    const accepts: nat
    var out: seq<Frame>
    var failed: bool

    var nextIndex: int
    var textIndex: int
    var thinkIndex: int
    var toolIndexes: map<int, int>
    var open: set<int>
    var stopReason: string
    var stopSequence: string
    var sawRefusal: bool
    var terminal: bool
    var reasoningID: string
    var toolIDs: map<string, int>
    var searches: map<string, SearchState>
    var citations: set<string>
    var reasoningIndexes: map<string, int>
    var reasoningSigned: set<int>

    // Every frame handed to the writer, whether or not it was accepted.
    ghost var sent: seq<Frame>

    ghost function View(): State
      reads this
    {
      State(Wire(sent, nextIndex, open), textIndex, citations,
            Mind(thinkIndex, reasoningID, reasoningIndexes, reasoningSigned), Tools(toolIndexes, toolIDs), searches)
    }

    ghost predicate WriterOk()
      reads this
    {
      out <= sent && (!failed ==> out == sent) && |out| <= accepts && (failed ==> |out| == accepts && |out| < |sent|)
    }

    constructor (accepts: nat)
      ensures WriterOk() && View() == Initial && !failed && this.accepts == accepts
      ensures stopReason == stopSequence == "" && !terminal
    {
      this.accepts := accepts;
      out, failed, sent := [], false, [];
      nextIndex, textIndex, thinkIndex, toolIndexes, open := 0, -1, -1, map[], {};
      stopReason, stopSequence, sawRefusal, terminal, reasoningID, toolIDs := "", "", false, false, "", map[];
      searches, citations, reasoningIndexes, reasoningSigned := map[], {}, map[], {};
    }

    method Write(f: Frame)
      requires WriterOk()
      modifies `out, `failed, `sent
      ensures WriterOk() && sent == old(sent) + [f]
    {
      if !failed {
        if |out| < accepts { out := out + [f]; } else { failed := true; }
      }
      sent := sent + [f];
    }

    method StartBlock(kind: Kind) returns (index: int)
      requires WriterOk()
      modifies `out, `failed, `sent, `nextIndex, `open
      ensures WriterOk() && index == old(nextIndex)
      ensures View() == old(View()).(wire := StreamState.StartBlock(old(View().wire), kind))
    {
      index := nextIndex;
      nextIndex := nextIndex + 1;
      open := open + {index};
      Write(BlockStart(index, kind));
    }

    method CloseBlock(index: int)
      requires WriterOk()
      modifies `out, `failed, `sent, `open
      ensures WriterOk() && View() == old(View()).(wire := StreamState.CloseBlock(old(View().wire), index))
    {
      if index !in open { return; }
      Write(BlockStop(index));
      open := open - {index};
    }

    method DetachThinking()
      requires WriterOk()
      modifies `out, `failed, `sent, `open, `thinkIndex
      ensures WriterOk() && View() == StreamState.DetachThinking(old(View()))
    {
      if thinkIndex >= 0 {
        if reasoningID == "" || thinkIndex in reasoningSigned {
          CloseBlock(thinkIndex);
        }
        thinkIndex := -1;
      }
    }

    method CloseTextualBlocks()
      requires WriterOk()
      modifies `out, `failed, `sent, `open, `textIndex, `thinkIndex
      ensures WriterOk() && View() == StreamState.CloseTextualBlocks(old(View()))
    {
      if textIndex >= 0 {
        CloseBlock(textIndex);
        textIndex := -1;
      }
      assert View() == CloseText(old(View()));
      DetachThinking();
    }

    method WriteText(text: string)
      requires WriterOk()
      modifies `out, `failed, `sent, `open, `nextIndex, `textIndex, `thinkIndex
      ensures WriterOk() && View() == StreamState.WriteText(old(View()), text)
    {
      DetachThinking();
      if textIndex < 0 {
        textIndex := StartBlock(TextBlock);
      }
      assert View() == OpenText(StreamState.DetachThinking(old(View())));
      Write(BlockDelta(textIndex, TextDelta(text)));
    }

    /** Makes the block of the current reasoning item the one being written. */
    method AttachThinking()
      requires WriterOk()
      modifies `out, `failed, `sent, `open, `nextIndex, `thinkIndex, `reasoningIndexes
      ensures WriterOk() && View() == StreamState.AttachThinking(old(View()))
    {
      if thinkIndex < 0 {
        if reasoningID in reasoningIndexes && reasoningID != "" {
          var index := reasoningIndexes[reasoningID];
          if index !in open { return; }
          thinkIndex := index;
        } else {
          thinkIndex := StartBlock(ThinkingBlock);
          if reasoningID != "" {
            reasoningIndexes := reasoningIndexes[reasoningID := thinkIndex];
          }
        }
      }
    }

    /** One method serves both kinds of reasoning delta; a signature leaves an open
        text block open. */
    method WriteThinkingDelta(isSignature: bool, value: string)
      requires WriterOk()
      modifies `out, `failed, `sent, `open, `nextIndex, `textIndex, `thinkIndex, `reasoningIndexes, `reasoningSigned
      ensures WriterOk()
      ensures View() == if isSignature then WriteSignature(old(View()), value) else WriteThinking(old(View()), value)
    {
      if textIndex >= 0 && !isSignature {
        CloseBlock(textIndex);
        textIndex := -1;
      }
      assert View() == if isSignature then old(View()) else CloseText(old(View()));
      AttachThinking();
      if thinkIndex < 0 { return; }
      if isSignature {
        if thinkIndex in reasoningSigned { return; }
        reasoningSigned := reasoningSigned + {thinkIndex};
      }
      Write(BlockDelta(thinkIndex, if isSignature then SignatureDelta(value) else ThinkingDelta(value)));
    }

    method SwitchReasoning(key: string)
      requires WriterOk()
      modifies `out, `failed, `sent, `open, `thinkIndex, `reasoningID
      ensures WriterOk() && View() == SetReasoning(old(View()), key)
    {
      if key != "" && key != reasoningID {
        DetachThinking();
        reasoningID := key;
      }
    }

    /** The first delta of an index opens its block. */
    method OpenToolBlock(t: ToolDelta) returns (fault: Option<Fault>)
      requires WriterOk()
      modifies `out, `failed, `sent, `open, `nextIndex, `textIndex, `thinkIndex, `toolIndexes, `toolIDs
      ensures WriterOk() && fault == ToolFault(old(View()), t)
      ensures View() == OpenTool(old(View()), t)
    {
      fault := None;
      if t.index !in toolIndexes {
        CloseTextualBlocks();
        if Blankish(t.id) || Blankish(t.name) { return Some(InvalidToolStart); }
        if t.id in toolIDs { return Some(DuplicateToolId); }
        toolIDs := toolIDs[t.id := t.index];
        var blockIndex := StartBlock(ToolBlock(t.id, t.name));
        toolIndexes := toolIndexes[t.index := blockIndex];
      }
    }

    method WriteToolCall(t: ToolDelta) returns (fault: Option<Fault>)
      requires WriterOk()
      modifies `out, `failed, `sent, `open, `nextIndex, `textIndex, `thinkIndex, `toolIndexes, `toolIDs
      ensures WriterOk() && fault == ToolFault(old(View()), t)
      ensures View() == StreamState.WriteToolCall(old(View()), t)
    {
      fault := OpenToolBlock(t);
      if fault.None? && t.arguments != "" {
        Write(BlockDelta(toolIndexes[t.index], JsonDelta(t.arguments)));
      }
    }

    method BeginSearch(id: string)
      requires WriterOk()
      modifies `out, `failed, `sent, `open, `nextIndex, `textIndex, `thinkIndex, `searches
      ensures WriterOk() && View() == OpenSearch(old(View()), id)
    {
      if id !in searches {
        CloseTextualBlocks();
        var index := StartBlock(SearchBlock(id));
        searches := searches[id := SearchState(index, false)];
      }
    }

    method FinishSearch(item: SearchItem, index: int)
      requires WriterOk()
      modifies `out, `failed, `sent, `open, `nextIndex, `searches
      ensures WriterOk() && View() == StreamState.FinishSearch(old(View()), item, index)
    {
      Write(BlockDelta(index, JsonDelta(item.input)));
      CloseBlock(index);
      var result := StartBlock(SearchResult(item.id, item.hits));
      CloseBlock(result);
      searches := searches[item.id := SearchState(index, true)];
    }

    method WriteSearch(item: SearchItem, done: bool)
      requires WriterOk()
      modifies `out, `failed, `sent, `open, `nextIndex, `textIndex, `thinkIndex, `searches
      ensures WriterOk() && View() == StreamState.WriteSearch(old(View()), item, done)
    {
      if item.id in searches && searches[item.id].done { return; }
      BeginSearch(item.id);
      // The final query snapshot is authoritative; earlier ones are not sent.
      if !done { return; }
      FinishSearch(item, searches[item.id].index);
    }

    method WriteCitation(citation: string)
      requires WriterOk()
      modifies `out, `failed, `sent, `open, `nextIndex, `textIndex, `thinkIndex, `citations
      ensures WriterOk() && View() == StreamState.WriteCitation(old(View()), citation)
    {
      if citation in citations { return; }
      if textIndex < 0 {
        CloseTextualBlocks();
        textIndex := StartBlock(TextBlock);
        assert View() == OpenText(StreamState.CloseTextualBlocks(old(View())));
      }
      citations := citations + {citation};
      Write(BlockDelta(textIndex, CitationDelta(citation)));
    }

    // ---- one chunk ----

    ghost function Now(fault: Option<Fault>): Run
      reads this
    {
      Run(View(), Ending(stopReason, stopSequence, terminal, false, fault))
    }

    method ReadReasoning(c: Choice)
      requires WriterOk()
      modifies `out, `failed, `sent, `open, `nextIndex, `textIndex, `thinkIndex, `reasoningIndexes, `reasoningSigned, `reasoningID
      ensures WriterOk() && View() == WriteReasoning(old(View()), c)
    {
      SwitchReasoning(c.reasoningId);
      if c.thinking != "" {
        WriteThinkingDelta(false, c.thinking);
      }
      if c.signature != "" {
        WriteThinkingDelta(true, c.signature);
      }
    }

    method ReadDone(c: Choice)
      requires WriterOk()
      modifies `out, `failed, `sent, `open, `nextIndex, `textIndex, `thinkIndex, `searches
      ensures WriterOk() && View() == WriteDone(old(View()), c)
    {
      if c.reasoningDone && thinkIndex >= 0 {
        DetachThinking();
      }
      if c.search.Some? {
        WriteSearch(c.search.value, c.searchDone);
      }
    }

    method ReadContent(c: Choice)
      requires WriterOk()
      modifies `out, `failed, `sent, `open, `nextIndex, `textIndex, `thinkIndex, `stopReason, `sawRefusal
      ensures WriterOk() && Now(None) == Run(WriteContent(old(View()), c), ProseEnding(old(Now(None)).ending, c))
    {
      if c.content != "" {
        WriteText(c.content);
      }
      if c.refusal != "" {
        WriteText(c.refusal);
        sawRefusal := true;
        if stopReason == "end_turn" {
          stopReason := "refusal";
        }
      }
    }

    /** What comes before the text of a choice. */
    method ReadAside(c: Choice)
      requires WriterOk()
      modifies `out, `failed, `sent, `open, `nextIndex, `textIndex, `thinkIndex, `reasoningIndexes, `reasoningSigned, `reasoningID, `searches
      ensures WriterOk() && View() == WriteDone(WriteReasoning(old(View()), c), c)
    {
      ReadReasoning(c);
      ReadDone(c);
    }

    method ReadProse(c: Choice)
      requires WriterOk()
      modifies `out, `failed, `sent, `open, `nextIndex, `textIndex, `thinkIndex, `reasoningIndexes, `reasoningSigned, `reasoningID,
               `searches, `stopReason, `sawRefusal
      ensures WriterOk() && Now(None) == RunProse(old(Now(None)), c)
    {
      ReadAside(c);
      ReadContent(c);
    }

    method ReadTools(calls: seq<ToolDelta>) returns (fault: Option<Fault>)
      requires WriterOk()
      modifies `out, `failed, `sent, `open, `nextIndex, `textIndex, `thinkIndex, `toolIndexes, `toolIDs
      ensures WriterOk() && Now(fault) == RunTools(old(Now(None)), calls)
    {
      ghost var u := Now(None);
      var k := 0;
      while k < |calls|
        invariant 0 <= k <= |calls|
        invariant WriterOk() && Now(None) == RunTools(u, calls[..k])
      {
        assert calls[..k + 1][..k] == calls[..k];
        fault := WriteToolCall(calls[k]);
        k := k + 1;
        assert Now(fault) == RunTools(u, calls[..k]);
        if fault.Some? {
          ToolFaultStays(u, calls, k);
          return;
        }
      }
      assert calls[..k] == calls;
      fault := None;
    }

    method ReadCitations(citations: seq<string>)
      requires WriterOk()
      modifies `out, `failed, `sent, `open, `nextIndex, `textIndex, `thinkIndex, `citations
      ensures WriterOk() && View() == WriteCitations(old(View()), citations)
    {
      var k := 0;
      while k < |citations|
        invariant 0 <= k <= |citations|
        invariant WriterOk() && View() == WriteCitations(old(View()), citations[..k])
      {
        assert citations[..k + 1][..k] == citations[..k];
        WriteCitation(citations[k]);
        k := k + 1;
      }
      assert citations[..k] == citations;
    }

    method ReadTail(c: Choice)
      requires WriterOk()
      modifies `out, `failed, `sent, `open, `nextIndex, `textIndex, `thinkIndex, `citations, `stopReason, `stopSequence, `terminal
      ensures WriterOk() && Now(None) == RunTail(old(Now(None)), c)
    {
      ReadCitations(c.citations);
      ReadEnding(c);
    }

    method ReadEnding(c: Choice)
      modifies `stopReason, `stopSequence, `terminal
      ensures Now(None).ending == TailEnding(old(Now(None)).ending, c)
    {
      if c.stopSequence != "" {
        stopSequence := c.stopSequence;
      }
      if !Blankish(c.finishReason) {
        stopReason := FinishToAnthropic(c.finishReason);
        terminal := true;
      }
    }

    method ReadChoices(choices: seq<Choice>) returns (fault: Option<Fault>)
      requires WriterOk()
      modifies this
      ensures WriterOk() && Now(fault) == RunChoices(old(Now(None)), choices)
    {
      ghost var u := Now(None);
      var k := 0;
      while k < |choices|
        invariant 0 <= k <= |choices|
        invariant WriterOk() && Now(None) == RunChoices(u, choices[..k])
      {
        assert choices[..k + 1][..k] == choices[..k];
        ReadProse(choices[k]);
        fault := ReadTools(choices[k].toolCalls);
        if fault.Some? {
          assert Now(fault) == RunChoices(u, choices[..k + 1]);
          ChoiceFaultStays(u, choices, k + 1);
          return;
        }
        ReadTail(choices[k]);
        k := k + 1;
      }
      assert choices[..k] == choices;
      fault := None;
    }

    /** `done` is the [DONE] marker of a finished stream. */
    method ReadEvent(e: Event) returns (fault: Option<Fault>, done: bool)
      requires WriterOk()
      modifies this
      ensures WriterOk()
      ensures done ==> terminal && fault.None? && RunEvent(old(Now(None)), e) == Run(View(), Now(None).ending.(ended := true))
      ensures !done ==> RunEvent(old(Now(None)), e) == Now(fault)
    {
      done := false;
      match e
      case Done =>
        if terminal { fault, done := None, true; } else { fault := Some(NoFinishReason); }
      case Undecodable => fault := Some(InvalidChunk);
      case UpstreamError => fault := Some(UpstreamFailure);
      case ReadError => fault := Some(ReadFailure);
      case Chunk(choices) => fault := ReadChoices(choices);
    }

    // ---- the end of the message ----

    /** Closes what is still open in index order and ends the message. */
    method Finish() returns (keys: seq<int>)
      requires WriterOk()
      modifies `out, `failed, `sent, `open, `stopReason
      ensures WriterOk() && Lists(keys, old(open))
      ensures sent == CloseAll(old(View().wire), keys).sent + [MessageDelta(stopReason, stopSequence, |searches|)] + [MessageStop]
      ensures stopReason == if old(stopReason) == "" then (if |toolIndexes| > 0 then "tool_use" else "end_turn") else old(stopReason)
    {
      keys := SortedKeys(open);
      CloseInOrder(keys);
      if stopReason == "" {
        stopReason := if |toolIndexes| > 0 then "tool_use" else "end_turn";
      }
      Write(MessageDelta(stopReason, stopSequence, |searches|));
      Write(MessageStop);
    }

    method CloseInOrder(keys: seq<int>)
      requires WriterOk()
      modifies `out, `failed, `sent, `open
      ensures WriterOk() && View().wire == CloseAll(old(View().wire), keys)
    {
      ghost var w := View().wire;
      var k := 0;
      while k < |keys|
        invariant 0 <= k <= |keys| && WriterOk() && View().wire == CloseAll(w, keys[..k])
      {
        assert keys[..k + 1][..k] == keys[..k];
        CloseBlock(keys[k]);
        k := k + 1;
      }
      assert keys[..k] == keys;
    }
  }

  method SortedKeys(s: set<int>) returns (keys: seq<int>)
    ensures Lists(keys, s)
  {
    keys := [];
    var rest := s;
    while rest != {}
      invariant rest <= s && Lists(keys, s - rest)
      invariant forall x, y :: x in keys && y in rest ==> x < y
      decreases rest
    {
      var least := Least(rest);
      assert forall x :: x in s - (rest - {least}) <==> x in s - rest || x == least;
      assert forall x :: x in keys + [least] <==> x in keys || x == least;
      assert forall i :: 0 <= i < |keys| ==> keys[i] in keys && keys[i] < least;
      keys := keys + [least];
      rest := rest - {least};
    }
  }

  method Least(s: set<int>) returns (least: int)
    requires s != {}
    ensures least in s && forall x :: x in s ==> least <= x
  {
    least := Sets.Pick(s);
    var rest := s - {least};
    while rest != {}
      invariant rest <= s && least in s
      invariant forall x :: x in s && x !in rest ==> least <= x
      decreases rest
    {
      var x := Sets.Pick(rest);
      if x < least { least := x; }
      rest := rest - {x};
    }
  }

  // ---- the whole translation ----

  /** Closing every open block leaves what the client assembled as it is. */
  lemma {:induction false} ClosedAll(w: Wire, keys: seq<int>, kinds: seq<Kind>)
    requires Play(w.sent).phase == Streaming && Indexed(w, Play(w.sent).blocks, kinds)
    ensures var c, d := Play(w.sent), Play(CloseAll(w, keys).sent);
            && d == c.(blocks := d.blocks) && |d.blocks| == |c.blocks|
            && (forall i :: 0 <= i < |c.blocks| ==> d.blocks[i] == c.blocks[i].(open := c.blocks[i].open && i !in keys))
            && Indexed(CloseAll(w, keys), d.blocks, kinds)
  {
    if keys != [] {
      var n := |keys| - 1;
      ClosedAll(w, keys[..n], kinds);
      var v := CloseAll(w, keys[..n]);
      assert forall i :: i in keys <==> i in keys[..n] || i == keys[n];
      if keys[n] in v.open {
        PlayExtend(v.sent, BlockStop(keys[n]));
      }
    }
  }

  lemma {:induction false} ShownClosed(a: seq<Block>, b: seq<Block>)
    requires |a| == |b| && forall i :: 0 <= i < |a| ==> b[i] == a[i].(open := b[i].open)
    ensures Shown(a) == Shown(b)
  {
    if a != [] {
      ShownClosed(a[..|a| - 1], b[..|b| - 1]);
    }
  }

  lemma TwoLast(frames: seq<Frame>, stop: string, sequence: string, searchCount: nat)
    requires Play(frames).phase == Streaming && AllClosed(Play(frames).blocks)
    ensures Play(frames + [MessageDelta(stop, sequence, searchCount)] + [MessageStop]) == Play(frames).(phase := Ended)
  {
    PlayExtend(frames, MessageDelta(stop, sequence, searchCount));
    PlayExtend(frames + [MessageDelta(stop, sequence, searchCount)], MessageStop);
  }

  lemma NoneOpen(w: Wire, keys: seq<int>, kinds: seq<Kind>)
    requires Play(w.sent).phase == Streaming && Indexed(w, Play(w.sent).blocks, kinds) && Lists(keys, w.open)
    ensures AllClosed(Play(CloseAll(w, keys).sent).blocks)
  {
    ClosedAll(w, keys, kinds);
  }

  lemma MessageEnded(s: State, r: Reading, keys: seq<int>, stop: string, sequence: string, searchCount: nat)
    requires Linked(s, r) && Lists(keys, s.wire.open)
    ensures var c := Play(CloseAll(s.wire, keys).sent + [MessageDelta(stop, sequence, searchCount)] + [MessageStop]);
            c.phase == Ended && Shows(c, r)
  {
    ClosedAll(s.wire, keys, r.kinds);
    NoneOpen(s.wire, keys, r.kinds);
    TwoLast(CloseAll(s.wire, keys).sent, stop, sequence, searchCount);
    ShowsClosed(s, r, Play(CloseAll(s.wire, keys).sent).(phase := Ended));
  }

  lemma ShowsClosed(s: State, r: Reading, d: Client)
    requires Linked(s, r)
    requires var c := Play(s.wire.sent);
             && |d.blocks| == |c.blocks| && d.thinking == c.thinking && d.signatures == c.signatures
             && forall i :: 0 <= i < |c.blocks| ==> d.blocks[i] == c.blocks[i].(open := d.blocks[i].open)
    ensures Shows(d, r)
  {
    var a := Play(s.wire.sent).blocks;
    ShownClosed(a, d.blocks);
    ToolsStillShown(s.tools, a, d.blocks, r.tools);
    ThoughtsStillShown(s.mind, a, d.blocks, r.reasoning);
    LooseStillShown(s.mind.indexes, a, d.blocks);
    SearchesStillShown(s.searches, a, d.blocks, r.searches);
  }

  function IndexesOf(searches: map<string, SearchState>): map<string, int> { map s | s in searches :: searches[s].index }

  lemma SearchesStillShown(searches: map<string, SearchState>, a: seq<Block>, b: seq<Block>, found: map<string, Option<SearchItem>>)
    requires SearchesLinked(searches, a, found)
    requires |a| == |b| && forall i :: 0 <= i < |a| ==> b[i] == a[i].(open := b[i].open)
    ensures SearchesShown(IndexesOf(searches), b, found)
  {
    assert IndexesOf(searches).Keys == searches.Keys;
  }

  lemma LooseStillShown(x: map<string, int>, a: seq<Block>, b: seq<Block>)
    requires |a| == |b| && forall i :: 0 <= i < |a| ==> b[i] == a[i].(open := b[i].open)
    ensures Loose(b, x) == Loose(a, x)
  {
    LooseSame(a, x, b, x);
  }

  lemma ToolsStillShown(t: Tools, a: seq<Block>, b: seq<Block>, tools: map<int, ToolText>)
    requires ToolsLinked(t, a, tools)
    requires |a| == |b| && forall i :: 0 <= i < |a| ==> b[i] == a[i].(open := b[i].open)
    ensures ToolsShown(t.indexes, b, tools)
  {
  }

  lemma ThoughtsStillShown(m: Mind, a: seq<Block>, b: seq<Block>, r: Reasoning)
    requires ThoughtsLinked(m, a, r)
    requires |a| == |b| && forall i :: 0 <= i < |a| ==> b[i] == a[i].(open := b[i].open)
    ensures ThoughtsShown(m.indexes, b, r.thoughts)
  {
    assert forall k :: k in m.indexes ==> Carries(a[m.indexes[k]], r.thoughts[k]);
  }

  /** Nothing is accepted after the end of a message. */
  lemma {:induction false} EndedIsLast(frames: seq<Frame>, n: nat)
    requires n < |frames| && Play(frames[..n]).phase == Ended
    ensures Play(frames).phase == Violated
  {
    assert frames[..|frames| - 1][..n] == frames[..n];
    if n < |frames| - 1 {
      EndedIsLast(frames[..|frames| - 1], n);
    }
  }

  /** What reached the client is a part of what was sent, so it is as well formed. */
  lemma Delivered(out: seq<Frame>, sent: seq<Frame>)
    requires out <= sent && Play(sent).phase != Violated
    ensures Play(out).phase != Violated
    ensures out != sent ==> Play(out).phase != Ended
  {
    PrefixAccepted(sent, |out|);
    if out != sent && Play(out).phase == Ended {
      EndedIsLast(sent, |out|);
    }
  }

  /** A finished stream has a stop reason. */
  ghost predicate Reasoned(e: Ending) { e.terminal ==> e.stopReason != "" }

  lemma {:induction false} ReasonedChoices(u: Run, choices: seq<Choice>)
    requires Reasoned(u.ending)
    ensures Reasoned(RunChoices(u, choices).ending)
  {
    if choices != [] {
      var n := |choices| - 1;
      ReasonedChoices(u, choices[..n]);
      ReasonedChoice(RunChoices(u, choices[..n]), choices[n]);
    }
  }

  lemma ReasonedEnding(e: Ending, c: Choice)
    ensures Reasoned(e) ==> Reasoned(ProseEnding(e, c))
    ensures Reasoned(e) ==> Reasoned(TailEnding(e, c))
  {
  }

  lemma ReasonedChoice(u: Run, c: Choice)
    requires Reasoned(u.ending)
    ensures Reasoned(RunChoice(u, c).ending)
  {
    var prose := RunProse(u, c);
    var called := RunTools(prose, c.toolCalls);
    ReasonedEnding(u.ending, c);
    ReasonedTools(prose, c.toolCalls);
    ReasonedEnding(called.ending, c);
    assert RunTail(called, c).ending == TailEnding(called.ending, c);
  }

  lemma {:induction false} ReasonedTools(u: Run, calls: seq<ToolDelta>)
    ensures RunTools(u, calls).ending == u.ending.(fault := RunTools(u, calls).ending.fault)
  {
    if calls != [] {
      ReasonedTools(u, calls[..|calls| - 1]);
    }
  }

  lemma {:induction false} ReasonGiven(events: seq<Event>)
    ensures Reasoned(RunEvents(events).ending)
  {
    if events != [] {
      var n := |events| - 1;
      ReasonGiven(events[..n]);
      if events[n].Chunk? {
        ReasonedChoices(RunEvents(events[..n]), events[n].choices);
      }
    }
  }

  /** Feeds the events to the translator until the stream ends, faults, or a write
      fails. */
  method Consume(t: Translator, events: seq<Event>) returns (fault: Option<Fault>)
    requires t.WriterOk() && !t.failed && t.Now(None) == Opened
    modifies t
    ensures t.WriterOk()
    ensures Reached(t.View(), events)
    ensures fault.Some? ==> FailRun(RunEvents(events), fault.value) == FinalRun(events) && t.View() == RunEvents(events).state
    ensures fault.None? && !t.failed ==>
              && FinalRun(events) == RunEvents(events) && RunEvents(events).ending.fault.None? && t.View() == RunEvents(events).state
              && t.stopReason == RunEvents(events).ending.stopReason && t.stopSequence == RunEvents(events).ending.stopSequence
  {
    var k := 0;
    assert events[..0] == [];
    while k < |events|
      invariant 0 <= k <= |events|
      invariant t.WriterOk() && !t.failed && t.Now(None) == RunEvents(events[..k])
    {
      assert events[..k + 1][..k] == events[..k];
      var done: bool;
      fault, done := t.ReadEvent(events[k]);
      k := k + 1;
      if done || fault.Some? {
        StoppedStays(events, k);
        return;
      }
      if t.failed { return; }
    }
    assert events[..k] == events;
    fault := if t.terminal then None else Some(ClosedEarly);
  }

  lemma FinalTracked(events: seq<Event>)
    ensures Linked(RunEvents(events).state, Read(events)) && FinalRun(events).ending == Read(events).ending
  {
    EventsTracked(events);
    LinkedApartFromEnding(RunEvents(events).state, ReadEvents(events), Read(events));
  }

  /** The client has the whole reading, and the message ends with its stop reason. */
  ghost predicate Whole(out: seq<Frame>, r: Reading) {
    && Play(out).phase == Ended && Shows(Play(out), r)
    && |out| >= 2 && out[|out| - 1] == MessageStop
    && out[|out| - 2] == MessageDelta(FinalStopReason(r.ending), r.ending.stopSequence, |r.searches|)
  }

  /** The tool blocks of a message are the calls that the fragments make up, each index a
      block of its own with an id of its own. */
  ghost predicate CallsShown(at: map<int, int>, blocks: seq<Block>, calls: seq<ToolDelta>) {
    && (forall i :: i in at <==> FirstOf(calls, i).Some?)
    && (forall i, j :: i in at && j in at && i != j ==> at[i] != at[j] && FirstOf(calls, i).value.0 != FirstOf(calls, j).value.0)
    && (forall i :: i in at ==>
          && 0 <= at[i] < |blocks| && blocks[at[i]].body == Fragments(calls, i)
          && blocks[at[i]].kind == ToolBlock(FirstOf(calls, i).value.0, FirstOf(calls, i).value.1))
  }

  /** Each named reasoning item that is mentioned has a block of its own, with its first
      signature and all its thinking until it was left behind with that. */
  ghost predicate ItemsShown(at: map<string, int>, blocks: seq<Block>, ns: seq<Note>) {
    && (forall k :: k in at <==> k != "" && Mentioned(ns, k))
    && (forall k, l :: k in at && l in at && k != l ==> at[k] != at[l])
    && (forall k :: k in at ==> 0 <= at[k] < |blocks| && ItemShown(blocks[at[k]], ns, k))
  }

  predicate ItemShown(b: Block, ns: seq<Note>, k: string) {
    && b.kind.ThinkingBlock? && b.body == ThinkingOf(ns, k)
    && b.sigs == if SignatureOf(ns, k).Some? then [SignatureOf(ns, k).value] else []
  }

  function KindsOf(blocks: seq<Block>): (r: seq<Kind>)
    ensures |r| == |blocks|
  {
    seq(|blocks|, i requires 0 <= i < |blocks| => blocks[i].kind)
  }

  /** Every search has a block of its own, with the query of its first finished snapshot. */
  ghost predicate QueriesShown(at: map<string, int>, blocks: seq<Block>, cs: seq<Choice>) {
    && (forall s :: s in at <==> Searched(cs, s))
    && (forall s :: s in at ==>
          && 0 <= at[s] < |blocks| && blocks[at[s]].kind == SearchBlock(s)
          && blocks[at[s]].body == if FirstDone(cs, s).Some? then FirstDone(cs, s).value.input else "")
  }

  /** The client was told what the choices say: all their text and citations in order, all
      their tool calls, their searches and in order the results of these, what they say of each reasoning item, and in the other thinking blocks the
      reasoning of no item, stretch by stretch; and how some choice finished the stream. */
  ghost predicate Told(out: seq<Frame>, cs: seq<Choice>) {
    var blocks := Play(out).blocks;
    && Shown(blocks) == (Said(cs), CitesOf(cs)) && EndTold(out, cs)
    && Results(KindsOf(blocks)) == ResultsOf(cs) && (exists at: map<string, int> :: QueriesShown(at, blocks, cs))
    && (exists at: map<int, int> :: CallsShown(at, blocks, Deltas(cs)))
    && (exists at: map<string, int> :: ItemsShown(at, blocks, Notes(cs)) && Loose(blocks, at) == Shorthand(Stretches(Notes(cs))))
  }

  /** The message ends with the stop reason and the stop sequence that the choices give. */
  ghost predicate EndTold(out: seq<Frame>, cs: seq<Choice>) {
    && |out| >= 2 && out[|out| - 2].MessageDelta? && out[|out| - 2].stopSequence == SequenceOf(cs)
    && exists i :: LastFinish(cs, i) && out[|out| - 2].stopReason == StopWord(SequenceOf(cs), cs, i)
  }

  lemma WholeTold(out: seq<Frame>, events: seq<Event>)
    requires Whole(out, Read(events)) && Read(events).ending.fault.None?
    ensures Told(out, ChoicesRead(events))
  {
    var r, cs, blocks := Read(events), ChoicesRead(events), Play(out).blocks;
    EventsSay(events);
    var i := StopReasonExactly(events);
    ThoughtsAreSaid(events);
    SearchesAreSaid(events);
    assert KindsOf(blocks) == r.kinds;
    var queries: map<string, int> :| SearchesShown(queries, blocks, r.searches);
    QueriesToo(queries, blocks, r.searches, cs);
    var calls: map<int, int> :| ToolsShown(calls, blocks, r.tools);
    CallsToo(calls, blocks, r.tools, Deltas(cs));
    var items: map<string, int> :| ThoughtsShown(items, blocks, r.reasoning.thoughts) && Loose(blocks, items) == r.reasoning.stretches;
    ItemsToo(items, blocks, r.reasoning, Notes(cs));
  }

  lemma QueriesToo(at: map<string, int>, blocks: seq<Block>, searches: map<string, Option<SearchItem>>, cs: seq<Choice>)
    requires SearchesShown(at, blocks, searches) && FoundSay(searches, cs)
    ensures QueriesShown(at, blocks, cs)
  {
    assert forall s :: s in at <==> s in searches;
  }

  lemma ItemsToo(at: map<string, int>, blocks: seq<Block>, m: Reasoning, ns: seq<Note>)
    requires ThoughtsShown(at, blocks, m.thoughts) && ItemsSay(m, ns)
    ensures ItemsShown(at, blocks, ns)
  {
    assert forall k :: k in at <==> k in m.thoughts;
    forall k | k in at
      ensures ItemShown(blocks[at[k]], ns, k)
    {
      assert m.thoughts[k] == Thought(ThinkingOf(ns, k), SignatureOf(ns, k), Sealed(ns, k));
    }
  }

  lemma CallsToo(at: map<int, int>, blocks: seq<Block>, tools: map<int, ToolText>, calls: seq<ToolDelta>)
    requires ToolsShown(at, blocks, tools) && MadeUp(tools, calls)
    ensures CallsShown(at, blocks, calls)
  {
    forall i
      ensures i in at <==> FirstOf(calls, i).Some?
    {
      assert CallMade(tools, calls, i);
    }
    assert forall i :: i in at ==> CallMade(tools, calls, i);
  }

  /** Translates a whole stream into the frames the writer accepted. The events decide
      which frames are sent, and however the stream goes, a client accepts every one of
      them; what reaches it is as many of the first as the writer accepts. The translation
      succeeds exactly when the stream reads without a fault and every frame was accepted;
      the client then has the whole reading, which is what the choices of the stream say,
      and its message is over. On a fault the message is broken off with an error frame
      and never ends. */
  method Translate(events: seq<Event>, accepts: nat) returns (out: seq<Frame>, failure: Option<Failure>, ghost all: seq<Frame>)
    ensures Causes(events, all) && out == FirstFrames(all, accepts)
    ensures Play(out).phase != Violated
    ensures failure.None? <==> Read(events).ending.fault.None? && |all| <= accepts
    ensures failure == Some(WriteFailed) ==> |all| > accepts
    ensures failure.None? ==> Whole(out, Read(events)) && Told(out, ChoicesRead(events))
    ensures failure.Some? && failure.value.StreamFailed? ==>
              && Read(events).ending.fault == Some(failure.value.fault)
              && (|all| <= accepts ==> Play(out).phase == Broken)
    ensures failure.Some? ==> Play(out).phase != Ended
  {
    var t := new Translator(accepts);
    all := Caused(events);
    CausedFrom(events, 0, all);
    t.Write(MessageStart);
    if t.failed {
      assert t.out == [];
      return t.out, Some(WriteFailed), all;
    }
    assert t.Now(None) == Opened;
    var fault := Consume(t, events);
    FinalEnding(events);
    ReachedCaused(t.View(), events, all);
    if fault.Some? {
      BreakOff(t, events, all);
      return t.out, Some(StreamFailed(fault.value)), all;
    }
    if t.failed {
      CutShort(t.View(), events, t.out);
      return t.out, Some(WriteFailed), all;
    }
    Complete(t, events, all);
    if !t.failed { WholeTold(t.out, events); }
    return t.out, if t.failed then Some(WriteFailed) else None, all;
  }

  function FirstFrames(all: seq<Frame>, n: nat): seq<Frame> { if n <= |all| then all[..n] else all }

  /** The state after some of the events. */
  ghost predicate Reached(s: State, events: seq<Event>) {
    exists k :: 0 <= k <= |events| && s == RunEvents(events[..k]).state
  }

  lemma StillStreaming(s: State, events: seq<Event>)
    requires Reached(s, events)
    ensures Play(s.wire.sent).phase == Streaming
  {
    var k :| 0 <= k <= |events| && s == RunEvents(events[..k]).state;
    EventsTracked(events[..k]);
  }

  lemma ReachedCaused(s: State, events: seq<Event>, all: seq<Frame>)
    requires Reached(s, events) && Causes(events, all)
    ensures s.wire.sent <= all
  {
    var k :| 0 <= k <= |events| && s == RunEvents(events[..k]).state;
    CausedFrom(events, k, all);
  }

  lemma CutShort(s: State, events: seq<Event>, out: seq<Frame>)
    requires Reached(s, events) && out <= s.wire.sent
    ensures Play(out).phase != Violated && Play(out).phase != Ended
  {
    StillStreaming(s, events);
    Delivered(out, s.wire.sent);
  }

  lemma FinalEnding(events: seq<Event>)
    ensures FinalRun(events).ending == Read(events).ending
  {
    FinalTracked(events);
  }

  lemma BrokenCaused(events: seq<Event>, all: seq<Frame>)
    requires Causes(events, all) && FinalRun(events).ending.fault.Some?
    ensures Play(all).phase == Broken
  {
    assert events[..|events|] == events;
    StillStreaming(RunEvents(events).state, events);
    PlayExtend(RunEvents(events).state.wire.sent, ErrorFrame);
  }

  lemma PartOfBroken(out: seq<Frame>, all: seq<Frame>)
    requires out <= all && Play(all).phase == Broken
    ensures Play(out).phase != Violated && Play(out).phase != Ended && (out == all ==> Play(out).phase == Broken)
  {
    Delivered(out, all);
  }

  method BreakOff(t: Translator, ghost events: seq<Event>, ghost all: seq<Frame>)
    requires t.WriterOk()
    requires t.View() == RunEvents(events).state && Causes(events, all) && FinalRun(events).ending.fault.Some?
    modifies t
    ensures Play(t.out).phase != Violated && Play(t.out).phase != Ended
    ensures t.out == FirstFrames(all, t.accepts) && (|all| <= t.accepts ==> Play(t.out).phase == Broken)
  {
    BrokenCaused(events, all);
    if !t.failed {
      t.Write(ErrorFrame);
    }
    PartOfBroken(t.out, all);
  }

  method Complete(t: Translator, ghost events: seq<Event>, ghost all: seq<Frame>)
    requires t.WriterOk() && !t.failed && t.View() == RunEvents(events).state
    requires t.stopReason == RunEvents(events).ending.stopReason && t.stopSequence == RunEvents(events).ending.stopSequence
    requires FinalRun(events) == RunEvents(events) && RunEvents(events).ending.fault.None? && Causes(events, all)
    modifies t
    ensures Play(t.out).phase != Violated
    ensures t.out == FirstFrames(all, t.accepts) && (t.failed <==> |all| > t.accepts)
    ensures t.failed ==> Play(t.out).phase != Ended
    ensures !t.failed ==> Whole(t.out, Read(events))
  {
    EndMessage(t, events, all);
    WholeCaused(events, all);
    Arrived(t.out, all, events);
  }

  method EndMessage(t: Translator, ghost events: seq<Event>, ghost all: seq<Frame>)
    requires t.WriterOk() && t.View() == RunEvents(events).state
    requires t.stopReason == RunEvents(events).ending.stopReason && t.stopSequence == RunEvents(events).ending.stopSequence
    requires FinalRun(events) == RunEvents(events) && RunEvents(events).ending.fault.None? && Causes(events, all)
    modifies t
    ensures t.WriterOk() && t.sent == all
  {
    GivenReason(events);
    if t.stopSequence != "" {
      t.stopReason := "stop_sequence";
    }
    var keys := t.Finish();
    AllSent(events, keys, all);
  }

  lemma WholeCaused(events: seq<Event>, all: seq<Frame>)
    requires FinalRun(events) == RunEvents(events) && RunEvents(events).ending.fault.None? && Causes(events, all)
    ensures Whole(all, Read(events))
  {
    var u := RunEvents(events);
    var keys :| Lists(keys, u.state.wire.open) && all == ClosedUp(u, keys);
    Completed(u.state, events, keys, all);
  }

  lemma AllSent(events: seq<Event>, keys: seq<int>, all: seq<Frame>)
    requires Lists(keys, RunEvents(events).state.wire.open) && FinalRun(events).ending.fault.None? && Causes(events, all)
    ensures all == ClosedUp(RunEvents(events), keys)
  {
    OneCause(events, all, ClosedUp(RunEvents(events), keys));
  }

  lemma GivenReason(events: seq<Event>)
    requires FinalRun(events) == RunEvents(events) && RunEvents(events).ending.fault.None?
    ensures RunEvents(events).ending.stopReason != ""
  {
    ReasonGiven(events);
  }

  lemma Completed(s: State, events: seq<Event>, keys: seq<int>, frames: seq<Frame>)
    requires s == RunEvents(events).state && Lists(keys, s.wire.open) && FinalRun(events) == RunEvents(events)
    requires frames == CloseAll(s.wire, keys).sent
      + [MessageDelta(FinalStopReason(RunEvents(events).ending), RunEvents(events).ending.stopSequence, |s.searches|)] + [MessageStop]
    ensures Whole(frames, Read(events))
  {
    var r, e := Read(events), RunEvents(events).ending;
    FinalTracked(events);
    SearchesCounted(s, r);
    MessageEnded(s, r, keys, FinalStopReason(e), e.stopSequence, |s.searches|);
  }

  lemma Arrived(out: seq<Frame>, sent: seq<Frame>, events: seq<Event>)
    requires out <= sent && Whole(sent, Read(events))
    ensures Play(out).phase != Violated && (out != sent ==> Play(out).phase != Ended)
  {
    Delivered(out, sent);
  }

  lemma SearchesCounted(s: State, r: Reading)
    requires Linked(s, r)
    ensures |s.searches| == |r.searches|
  {
    assert |s.searches| == |s.searches.Keys| && |r.searches| == |r.searches.Keys|;
  }

  // ---- faults end the run ----

  lemma {:induction false} ToolFaultStays(u: Run, calls: seq<ToolDelta>, k: nat)
    requires k <= |calls| && RunTools(u, calls[..k]).ending.fault.Some?
    ensures RunTools(u, calls) == RunTools(u, calls[..k])
  {
    if k == |calls| {
      assert calls[..k] == calls;
    } else {
      assert calls[..|calls| - 1][..k] == calls[..k];
      ToolFaultStays(u, calls[..|calls| - 1], k);
    }
  }

  lemma {:induction false} ChoiceFaultStays(u: Run, choices: seq<Choice>, k: nat)
    requires k <= |choices| && RunChoices(u, choices[..k]).ending.fault.Some?
    ensures RunChoices(u, choices) == RunChoices(u, choices[..k])
  {
    if k == |choices| {
      assert choices[..k] == choices;
    } else {
      assert choices[..|choices| - 1][..k] == choices[..k];
      ChoiceFaultStays(u, choices[..|choices| - 1], k);
    }
  }

  lemma {:induction false} StoppedStays(events: seq<Event>, k: nat)
    requires k <= |events|
    requires RunEvents(events[..k]).ending.ended || RunEvents(events[..k]).ending.fault.Some?
    ensures RunEvents(events) == RunEvents(events[..k])
  {
    if k == |events| {
      assert events[..k] == events;
    } else {
      assert events[..|events| - 1][..k] == events[..k];
      StoppedStays(events[..|events| - 1], k);
    }
  }
}
