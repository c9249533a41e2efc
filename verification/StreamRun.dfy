/** The translator's whole run as a function: which operations each event causes.
    Every step keeps the client linked to the reading. */
module StreamRun {
  import opened Text
  import opened AnthropicClient
  import opened StreamReading
  import opened StreamState
  import opened StreamLinks
  import opened StreamProof
  import opened StreamReasoningProof
  import StreamEnding

  datatype Run = Run(state: State, ending: Ending)

  function WriteReasoning(s: State, c: Choice): State {
    var s1 := SetReasoning(s, c.reasoningId);
    var s2 := if c.thinking != "" then WriteThinking(s1, c.thinking) else s1;
    if c.signature != "" then WriteSignature(s2, c.signature) else s2
  }

  function WriteDone(s: State, c: Choice): State {
    var s1 := if c.reasoningDone then DetachThinking(s) else s;
    if c.search.Some? then WriteSearch(s1, c.search.value, c.searchDone) else s1
  }

  function WriteContent(s: State, c: Choice): State {
    var s1 := if c.content != "" then WriteText(s, c.content) else s;
    if c.refusal != "" then WriteText(s1, c.refusal) else s1
  }

  function ProseEnding(e: Ending, c: Choice): Ending {
    if c.refusal != "" && e.stopReason == "end_turn" then e.(stopReason := "refusal") else e
  }

  function RunProse(u: Run, c: Choice): Run {
    Run(WriteContent(WriteDone(WriteReasoning(u.state, c), c), c), ProseEnding(u.ending, c))
  }

  function RunTool(u: Run, t: ToolDelta): Run {
    if u.ending.fault.Some? then u
    else
      var fault := ToolFault(u.state, t);
      Run(WriteToolCall(u.state, t), if fault.Some? then u.ending.(fault := fault) else u.ending)
  }

  function RunTools(u: Run, calls: seq<ToolDelta>): Run {
    if calls == [] then u else RunTool(RunTools(u, calls[..|calls| - 1]), calls[|calls| - 1])
  }

  function WriteCitations(s: State, citations: seq<string>): State {
    if citations == [] then s else WriteCitation(WriteCitations(s, citations[..|citations| - 1]), citations[|citations| - 1])
  }

  function TailEnding(e: Ending, c: Choice): Ending {
    var e1 := if c.stopSequence != "" then e.(stopSequence := c.stopSequence) else e;
    if Blankish(c.finishReason) then e1 else e1.(stopReason := FinishToAnthropic(c.finishReason), terminal := true)
  }

  function RunTail(u: Run, c: Choice): Run { Run(WriteCitations(u.state, c.citations), TailEnding(u.ending, c)) }

  function RunChoice(u: Run, c: Choice): Run {
    var called := RunTools(RunProse(u, c), c.toolCalls);
    if called.ending.fault.Some? then called else RunTail(called, c)
  }

  function RunChoices(u: Run, choices: seq<Choice>): Run {
    if choices == [] then u
    else
      var before := RunChoices(u, choices[..|choices| - 1]);
      if before.ending.fault.Some? then before else RunChoice(before, choices[|choices| - 1])
  }

  function FailRun(u: Run, f: Fault): Run { Run(u.state, u.ending.(fault := Some(f))) }

  function RunEvent(u: Run, e: Event): Run {
    if u.ending.ended || u.ending.fault.Some? then u
    else match e
      case Done => if u.ending.terminal then Run(u.state, u.ending.(ended := true)) else FailRun(u, NoFinishReason)
      case Undecodable => FailRun(u, InvalidChunk)
      case UpstreamError => FailRun(u, UpstreamFailure)
      case ReadError => FailRun(u, ReadFailure)
      case Chunk(choices) => RunChoices(u, choices)
  }

  /** The first frame opens the message. */
  const Opened := Run(Initial.(wire := Emit(Initial.wire, MessageStart)), Blank.ending)

  function RunEvents(events: seq<Event>): Run {
    if events == [] then Opened else RunEvent(RunEvents(events[..|events| - 1]), events[|events| - 1])
  }

  // ---- the run tracks the reading ----

  ghost predicate Tracks(u: Run, r: Reading) { Linked(u.state, r) && u.ending == r.ending }

  lemma LinkedApartFromEnding(s: State, r: Reading, q: Reading)
    requires Linked(s, r) && q == r.(ending := q.ending)
    ensures Linked(s, q)
  {
  }

  function ReasoningRead(r: Reading, c: Choice): Reading {
    Sign(Think(SwitchReasoning(r, c.reasoningId), c.thinking), c.signature)
  }

  lemma ReasoningTracked(s: State, r: Reading, c: Choice)
    requires Linked(s, r)
    ensures Linked(WriteReasoning(s, c), ReasoningRead(r, c))
  {
    SetReasoningKeeps(s, r, c.reasoningId);
    var s1, r1 := SetReasoning(s, c.reasoningId), SwitchReasoning(r, c.reasoningId);
    if c.thinking != "" {
      WriteThinkingKeeps(s1, r1, c.thinking);
    }
    if c.signature != "" {
      WriteSignatureKeeps(if c.thinking != "" then WriteThinking(s1, c.thinking) else s1, Think(r1, c.thinking), c.signature);
    }
  }

  function DoneRead(r: Reading, c: Choice): Reading {
    var r1 := if c.reasoningDone then Leave(r) else r;
    if c.search.Some? then Search(r1, c.search.value, c.searchDone) else r1
  }

  lemma DoneTracked(s: State, r: Reading, c: Choice)
    requires Linked(s, r)
    ensures Linked(WriteDone(s, c), DoneRead(r, c))
  {
    if c.reasoningDone {
      DetachKeeps(s, r);
    }
    if c.search.Some? {
      WriteSearchKeeps(if c.reasoningDone then DetachThinking(s) else s, if c.reasoningDone then Leave(r) else r, c.search.value, c.searchDone);
    }
  }

  function ContentRead(r: Reading, c: Choice): Reading { Write(Write(r, c.content), c.refusal) }

  lemma ContentTracked(s: State, r: Reading, c: Choice)
    requires Linked(s, r)
    ensures Linked(WriteContent(s, c), ContentRead(r, c))
  {
    if c.content != "" {
      WriteTextKeeps(s, r, c.content);
    }
    if c.refusal != "" {
      WriteTextKeeps(if c.content != "" then WriteText(s, c.content) else s, Write(r, c.content), c.refusal);
    }
  }

  /** Reasoning, searches and text leave the ending alone. */
  lemma EndingUntouched(r: Reading, c: Choice)
    ensures ReasoningRead(r, c).ending == DoneRead(r, c).ending == ContentRead(r, c).ending == r.ending
  {
    StreamEnding.ReasoningKeepsEnding(r, c);
    if c.search.Some? {
      StreamEnding.SearchKeepsEnding(if c.reasoningDone then Leave(r) else r, c.search.value, c.searchDone);
    }
    assert Write(r, c.content).ending == r.ending;
  }

  lemma ProseSteps(r: Reading, c: Choice)
    ensures var q := ContentRead(DoneRead(ReasoningRead(r, c), c), c);
            ReadProse(r, c) == q.(ending := ProseEnding(r.ending, c))
  {
    EndingUntouched(r, c);
    EndingUntouched(ReasoningRead(r, c), c);
    var d := DoneRead(ReasoningRead(r, c), c);
    EndingUntouched(d, c);
    assert ReadProse(r, c) == Refuse(Write(d, c.content), c.refusal);
  }

  lemma ProseTracked(u: Run, r: Reading, c: Choice)
    requires Tracks(u, r)
    ensures Tracks(RunProse(u, c), ReadProse(r, c))
  {
    ReasoningTracked(u.state, r, c);
    DoneTracked(WriteReasoning(u.state, c), ReasoningRead(r, c), c);
    ContentTracked(WriteDone(WriteReasoning(u.state, c), c), DoneRead(ReasoningRead(r, c), c), c);
    ProseSteps(r, c);
    LinkedApartFromEnding(RunProse(u, c).state, ContentRead(DoneRead(ReasoningRead(r, c), c), c), ReadProse(r, c));
  }

  lemma ToolTracked(u: Run, r: Reading, t: ToolDelta)
    requires Tracks(u, r)
    ensures Tracks(RunTool(u, t), CallTool(r, t))
  {
    if u.ending.fault.None? {
      WriteToolCallKeeps(u.state, r, t);
      ToolEnding(r, t);
    }
  }

  lemma ToolEnding(r: Reading, t: ToolDelta)
    ensures CallTool(r, t).ending == r.ending.(fault := CallTool(r, t).ending.fault)
  {
  }

  lemma {:induction false} ToolsTracked(u: Run, r: Reading, calls: seq<ToolDelta>)
    requires Tracks(u, r)
    ensures Tracks(RunTools(u, calls), CallTools(r, calls))
  {
    if calls != [] {
      var n := |calls| - 1;
      ToolsTracked(u, r, calls[..n]);
      ToolTracked(RunTools(u, calls[..n]), CallTools(r, calls[..n]), calls[n]);
    }
  }

  lemma {:induction false} CitationsTracked(s: State, r: Reading, citations: seq<string>)
    requires Linked(s, r)
    ensures Linked(WriteCitations(s, citations), CiteAll(r, citations)) && CiteAll(r, citations).ending == r.ending
  {
    if citations != [] {
      var n := |citations| - 1;
      CitationsTracked(s, r, citations[..n]);
      WriteCitationKeeps(WriteCitations(s, citations[..n]), CiteAll(r, citations[..n]), citations[n]);
    }
  }

  lemma TailTracked(u: Run, r: Reading, c: Choice)
    requires Tracks(u, r)
    ensures Tracks(RunTail(u, c), ReadTail(r, c))
  {
    CitationsTracked(u.state, r, c.citations);
    LinkedApartFromEnding(WriteCitations(u.state, c.citations), CiteAll(r, c.citations), ReadTail(r, c));
  }

  lemma {:induction false} ChoicesTracked(u: Run, r: Reading, choices: seq<Choice>)
    requires Tracks(u, r)
    ensures Tracks(RunChoices(u, choices), ReadChoices(r, choices))
  {
    if choices != [] {
      var n := |choices| - 1;
      ChoicesTracked(u, r, choices[..n]);
      if ReadChoices(r, choices[..n]).ending.fault.None? {
        ChoiceTracked(RunChoices(u, choices[..n]), ReadChoices(r, choices[..n]), choices[n]);
      }
    }
  }

  lemma ChoiceTracked(u: Run, r: Reading, c: Choice)
    requires Tracks(u, r)
    ensures Tracks(RunChoice(u, c), ReadChoice(r, c))
  {
    ProseTracked(u, r, c);
    ToolsTracked(RunProse(u, c), ReadProse(r, c), c.toolCalls);
    TailTracked(RunTools(RunProse(u, c), c.toolCalls), CallTools(ReadProse(r, c), c.toolCalls), c);
  }

  lemma {:induction false} EventsTracked(events: seq<Event>)
    ensures Tracks(RunEvents(events), ReadEvents(events))
  {
    if events == [] {
      PlayExtend([], MessageStart);
      assert [] + [MessageStart] == [MessageStart];
    } else {
      var n := |events| - 1;
      EventsTracked(events[..n]);
      EventTracked(RunEvents(events[..n]), ReadEvents(events[..n]), events[n]);
    }
  }

  lemma EventTracked(u: Run, r: Reading, e: Event)
    requires Tracks(u, r)
    ensures Tracks(RunEvent(u, e), ReadEvent(r, e))
  {
    if e.Chunk? {
      ChoicesTracked(u, r, e.choices);
    } else {
      LinkedApartFromEnding(u.state, r, ReadEvent(r, e));
    }
  }
}
