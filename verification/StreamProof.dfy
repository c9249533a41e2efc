/** Every operation of the translator keeps the client linked to the reading. */
module StreamProof {
  import opened AnthropicClient
  import opened StreamReading
  import opened StreamState
  import opened StreamLinks

  /** Starting a block leaves the blocks of every other sort alone. */
  lemma StartedBlock(w: Wire, kind: Kind, kinds: seq<Kind>)
    requires Play(w.sent).phase == Streaming && Indexed(w, Play(w.sent).blocks, kinds) && FreshKind(Play(w.sent).blocks, kind)
    ensures var c, d := Play(w.sent), Play(StartBlock(w, kind).sent);
            && d == c.(blocks := c.blocks + [Block(kind, "", [], [], true)])
            && (forall sort :: sort != SortOf(kind) ==> Untouched(c.blocks, d.blocks, sort))
            && Indexed(StartBlock(w, kind), d.blocks, kinds + [kind])
  {
    PlayExtend(w.sent, BlockStart(w.nextIndex, kind));
  }

  lemma StoppedBlock(w: Wire, i: int, kinds: seq<Kind>)
    requires Play(w.sent).phase == Streaming && Indexed(w, Play(w.sent).blocks, kinds) && IsOpen(Play(w.sent).blocks, i)
    ensures var c, d := Play(w.sent), Play(CloseBlock(w, i).sent);
            && d == c.(blocks := c.blocks[i := c.blocks[i].(open := false)])
            && (forall sort :: sort != SortOf(c.blocks[i].kind) ==> Untouched(c.blocks, d.blocks, sort))
            && Indexed(CloseBlock(w, i), d.blocks, kinds)
  {
    PlayExtend(w.sent, BlockStop(i));
  }

  lemma ExtendedBlock(w: Wire, i: int, d: Delta, kinds: seq<Kind>)
    requires Play(w.sent).phase == Streaming && Indexed(w, Play(w.sent).blocks, kinds)
    requires IsOpen(Play(w.sent).blocks, i) && Fits(Play(w.sent).blocks[i], d)
    ensures var c, e := Play(w.sent), Play(Emit(w, BlockDelta(i, d)).sent);
            && e.phase == Streaming
            && e.blocks == c.blocks[i := Extend(c.blocks[i], d)]
            && e.thinking == (if d.ThinkingDelta? then c.thinking + d.thinking else c.thinking)
            && e.signatures == (if d.SignatureDelta? then c.signatures + [d.signature] else c.signatures)
            && (forall sort :: sort != SortOf(c.blocks[i].kind) ==> Untouched(c.blocks, e.blocks, sort))
            && Indexed(Emit(w, BlockDelta(i, d)), e.blocks, kinds)
  {
    PlayExtend(w.sent, BlockDelta(i, d));
  }

  /** Closing the thinking block being written, when it is anonymous or signed. */
  lemma ThinkingClosed(m: Mind, a: seq<Block>, r: Reasoning)
    requires ThoughtsLinked(m, a, r) && ThinkingLinked(m, a, r) && ThinkingOver(m)
    ensures ThoughtsLinked(m.(thinkIndex := -1), a[m.thinkIndex := a[m.thinkIndex].(open := false)], LeaveReasoning(r))
    ensures ThinkingLinked(m.(thinkIndex := -1), a[m.thinkIndex := a[m.thinkIndex].(open := false)], LeaveReasoning(r))
  {
    var l := LeaveReasoning(r);
    var b := a[m.thinkIndex := a[m.thinkIndex].(open := false)];
    assert l.thoughts.Keys == r.thoughts.Keys;
    forall k | k in m.indexes
      ensures Carries(b[m.indexes[k]], l.thoughts[k])
      ensures l.thoughts[k].signature.Some? ==> l.thoughts[k].closed
    {
      assert Carries(a[m.indexes[k]], r.thoughts[k]);
      if k != m.reasoningID {
        assert m.indexes[k] != m.thinkIndex;
        assert l.thoughts[k] == r.thoughts[k];
      }
    }
    LooseKept(a, m.indexes, m.thinkIndex, b[m.thinkIndex]);
    assert ThinkingLinked(m.(thinkIndex := -1), b, l);
  }

  lemma ThinkingParked(m: Mind, a: seq<Block>, r: Reasoning)
    requires ThoughtsLinked(m, a, r) && ThinkingLinked(m, a, r) && !ThinkingOver(m)
    ensures ThoughtsLinked(m.(thinkIndex := -1), a, LeaveReasoning(r))
    ensures ThinkingLinked(m.(thinkIndex := -1), a, LeaveReasoning(r))
  {
    assert forall k :: k in m.indexes ==> Carries(a[m.indexes[k]], r.thoughts[k]);
    assert LeaveReasoning(r).thoughts == r.thoughts;
  }

  lemma DetachKeeps(s: State, r: Reading)
    requires Linked(s, r)
    ensures Linked(DetachThinking(s), Leave(r)) && DetachThinking(s).mind.thinkIndex == -1
  {
    var c := Play(s.wire.sent);
    if ThinkingOver(s.mind) {
      StoppedBlock(s.wire, s.mind.thinkIndex, r.kinds);
      var b := Play(DetachThinking(s).wire.sent).blocks;
      ThinkingClosed(s.mind, c.blocks, r.reasoning);
      TextUntouched(s.textIndex, s.citations, c.blocks, b, r.prose);
      ToolsUntouched(s.tools, c.blocks, b, r.tools);
      SearchesUntouched(s.searches, c.blocks, b, r.searches);
    } else {
      ThinkingParked(s.mind, c.blocks, r.reasoning);
    }
  }

  /** The relations of every sort but text survive a change to a text block. */
  lemma OnlyText(s: State, a: seq<Block>, b: seq<Block>, r: Reading)
    requires ToolsLinked(s.tools, a, r.tools) && SearchesLinked(s.searches, a, r.searches)
    requires ThoughtsLinked(s.mind, a, r.reasoning) && ThinkingLinked(s.mind, a, r.reasoning)
    requires forall sort :: sort != TextSort ==> Untouched(a, b, sort)
    ensures ToolsLinked(s.tools, b, r.tools) && SearchesLinked(s.searches, b, r.searches)
    ensures ThoughtsLinked(s.mind, b, r.reasoning) && ThinkingLinked(s.mind, b, r.reasoning)
  {
    ToolsUntouched(s.tools, a, b, r.tools);
    SearchesUntouched(s.searches, a, b, r.searches);
    ReasoningUntouched(s.mind, a, b, r.reasoning);
  }

  lemma TextStopped(textIndex: int, citations: set<string>, a: seq<Block>, r: Prose)
    requires TextLinked(textIndex, citations, a, r) && textIndex >= 0
    ensures TextLinked(-1, citations, a[textIndex := a[textIndex].(open := false)], r.(open := false))
  {
    ShownSame(a, textIndex, a[textIndex].(open := false));
  }

  lemma TextStarted(citations: set<string>, a: seq<Block>, r: Prose)
    requires TextLinked(-1, citations, a, r)
    ensures TextLinked(|a|, citations, a + [Block(TextBlock, "", [], [], true)], r.(open := true))
  {
    ShownAppend(a, Block(TextBlock, "", [], [], true));
  }

  lemma TextExtended(textIndex: int, citations: set<string>, a: seq<Block>, r: Prose, text: string)
    requires TextLinked(textIndex, citations, a, r) && textIndex >= 0
    ensures TextLinked(textIndex, citations, a[textIndex := Extend(a[textIndex], TextDelta(text))], r.(text := r.text + text))
  {
    assert a[textIndex].cites + [] == a[textIndex].cites && r.cites + [] == r.cites;
    ShownUpdate(a, textIndex, Extend(a[textIndex], TextDelta(text)), text, []);
  }

  lemma TextCited(textIndex: int, citations: set<string>, a: seq<Block>, r: Prose, citation: string)
    requires TextLinked(textIndex, citations, a, r) && textIndex >= 0
    ensures TextLinked(textIndex, citations + {citation}, a[textIndex := Extend(a[textIndex], CitationDelta(citation))],
                       r.(cites := r.cites + [citation]))
  {
    assert a[textIndex].body + "" == a[textIndex].body && r.text + "" == r.text;
    ShownUpdate(a, textIndex, Extend(a[textIndex], CitationDelta(citation)), "", [citation]);
  }

  lemma CloseTextKeeps(s: State, r: Reading)
    requires Linked(s, r)
    ensures Linked(CloseText(s), EndText(r)) && CloseText(s).textIndex == -1
  {
    var c := Play(s.wire.sent);
    if s.textIndex >= 0 {
      StoppedBlock(s.wire, s.textIndex, r.kinds);
      TextStopped(s.textIndex, s.citations, c.blocks, r.prose);
      OnlyText(s, c.blocks, Play(CloseText(s).wire.sent).blocks, r);
    }
  }

  lemma ShownSame(blocks: seq<Block>, i: nat, b: Block)
    requires i < |blocks| && b.kind == blocks[i].kind && b.body == blocks[i].body && b.cites == blocks[i].cites
    ensures Shown(blocks[i := b]) == Shown(blocks)
  {
    assert b.body + "" == b.body && b.cites + [] == b.cites;
    assert Shown(blocks).0 + "" == Shown(blocks).0 && Shown(blocks).1 + [] == Shown(blocks).1;
    ShownUpdate(blocks, i, b, "", []);
  }

  lemma CloseTextualKeeps(s: State, r: Reading)
    requires Linked(s, r)
    ensures Linked(CloseTextualBlocks(s), Leave(EndText(r)))
  {
    CloseTextKeeps(s, r);
    DetachKeeps(CloseText(s), EndText(r));
  }

  lemma OpenTextKeeps(s: State, r: Reading)
    requires Linked(s, r)
    ensures Linked(OpenText(s), BeginText(r)) && OpenText(s).textIndex >= 0
  {
    if s.textIndex < 0 {
      var c := Play(s.wire.sent);
      StartedBlock(s.wire, TextBlock, r.kinds);
      TextStarted(s.citations, c.blocks, r.prose);
      OnlyText(s, c.blocks, Play(OpenText(s).wire.sent).blocks, r);
    }
  }

  lemma SendTextKeeps(s: State, r: Reading, text: string)
    requires Linked(s, r) && s.textIndex >= 0
    ensures Linked(SendText(s, text), r.(prose := r.prose.(text := r.prose.text + text)))
  {
    var c := Play(s.wire.sent);
    ExtendedBlock(s.wire, s.textIndex, TextDelta(text), r.kinds);
    TextExtended(s.textIndex, s.citations, c.blocks, r.prose, text);
    OnlyText(s, c.blocks, Play(SendText(s, text).wire.sent).blocks, r);
  }

  lemma SendCitationKeeps(s: State, r: Reading, citation: string)
    requires Linked(s, r) && s.textIndex >= 0
    ensures Linked(SendCitation(s, citation), r.(prose := r.prose.(cites := r.prose.cites + [citation])))
  {
    var c := Play(s.wire.sent);
    ExtendedBlock(s.wire, s.textIndex, CitationDelta(citation), r.kinds);
    TextCited(s.textIndex, s.citations, c.blocks, r.prose, citation);
    OnlyText(s, c.blocks, Play(SendCitation(s, citation).wire.sent).blocks, r);
  }

  lemma WriteTextKeeps(s: State, r: Reading, text: string)
    requires Linked(s, r) && text != ""
    ensures Linked(WriteText(s, text), Write(r, text))
  {
    DetachKeeps(s, r);
    OpenTextKeeps(DetachThinking(s), Leave(r));
    SendTextKeeps(OpenText(DetachThinking(s)), BeginText(Leave(r)), text);
  }

  lemma WriteCitationKeeps(s: State, r: Reading, citation: string)
    requires Linked(s, r)
    ensures Linked(WriteCitation(s, citation), Cite(r, citation))
  {
    if citation !in s.citations {
      if s.textIndex < 0 {
        CloseTextualKeeps(s, r);
        assert EndText(r) == r;
        OpenTextKeeps(CloseTextualBlocks(s), Leave(r));
        SendCitationKeeps(OpenText(CloseTextualBlocks(s)), BeginText(Leave(r)), citation);
      } else {
        SendCitationKeeps(s, r, citation);
      }
    }
  }
}
