/** What a faultless stream says, in terms of its choices alone: its text, the arguments of
    its tool calls, and whether it was finished. */
module StreamContent {
  import opened Text
  import opened StreamReading
  import opened StreamEnding
  import Seqs

  // ---- text ----

  /** All content and refusals, in the order they arrive. */
  function Said(cs: seq<Choice>): string {
    if cs == [] then "" else Said(cs[..|cs| - 1]) + (cs[|cs| - 1].content + cs[|cs| - 1].refusal)
  }

  lemma {:induction false} SaidConcat(a: seq<Choice>, b: seq<Choice>)
    ensures Said(a + b) == Said(a) + Said(b)
  {
    if b == [] {
      assert a + b == a;
    } else {
      SaidConcat(a, b[..|b| - 1]);
      assert (a + b)[..|a + b| - 1] == a + b[..|b| - 1];
      Seqs.Assoc(Said(a), Said(b[..|b| - 1]), b[|b| - 1].content + b[|b| - 1].refusal);
    }
  }

  lemma ReasoningKeepsText(r: Reading, c: Choice)
    ensures Sign(Think(SwitchReasoning(r, c.reasoningId), c.thinking), c.signature).prose.text == r.prose.text
    ensures Sign(Think(SwitchReasoning(r, c.reasoningId), c.thinking), c.signature).tools == r.tools
  {
    var r0 := SwitchReasoning(r, c.reasoningId);
    ThinkingKeepsText(r0, c.thinking);
    SigningKeepsText(Think(r0, c.thinking), c.signature);
  }

  lemma ThinkingKeepsText(r: Reading, s: string)
    ensures Think(r, s).prose.text == r.prose.text && Think(r, s).tools == r.tools
  {
  }

  lemma SigningKeepsText(r: Reading, s: string)
    ensures Sign(r, s).prose.text == r.prose.text && Sign(r, s).tools == r.tools
  {
  }

  lemma SearchKeepsText(r: Reading, item: SearchItem, done: bool)
    ensures Search(r, item, done).prose.text == r.prose.text && Search(r, item, done).tools == r.tools
  {
  }

  lemma WriteAddsText(r: Reading, s: string)
    ensures Write(r, s).prose.text == r.prose.text + s && Write(r, s).tools == r.tools
    ensures Refuse(r, s).prose.text == r.prose.text + s && Refuse(r, s).tools == r.tools
  {
    assert r.prose.text + "" == r.prose.text;
  }

  lemma ProseAddsText(r: Reading, c: Choice)
    ensures ReadProse(r, c).prose.text == r.prose.text + (c.content + c.refusal) && ReadProse(r, c).tools == r.tools
  {
    var r1 := Sign(Think(SwitchReasoning(r, c.reasoningId), c.thinking), c.signature);
    var r2 := if c.reasoningDone then Leave(r1) else r1;
    var r3 := if c.search.Some? then Search(r2, c.search.value, c.searchDone) else r2;
    ReasoningKeepsText(r, c);
    if c.search.Some? { SearchKeepsText(r2, c.search.value, c.searchDone); }
    WriteAddsText(r3, c.content);
    WriteAddsText(Write(r3, c.content), c.refusal);
    Seqs.Assoc(r.prose.text, c.content, c.refusal);
  }

  lemma {:induction false} CallsKeepText(r: Reading, calls: seq<ToolDelta>)
    ensures CallTools(r, calls).prose.text == r.prose.text
  {
    if calls != [] { CallsKeepText(r, calls[..|calls| - 1]); }
  }

  lemma {:induction false} CitationsKeepText(r: Reading, citations: seq<string>)
    ensures CiteAll(r, citations).prose.text == r.prose.text && CiteAll(r, citations).tools == r.tools
  {
    if citations != [] { CitationsKeepText(r, citations[..|citations| - 1]); }
  }

  // ---- tool calls ----

  function Deltas(cs: seq<Choice>): seq<ToolDelta> {
    if cs == [] then [] else Deltas(cs[..|cs| - 1]) + cs[|cs| - 1].toolCalls
  }

  /** The argument fragments of one index, joined in the order they arrive. */
  function Fragments(calls: seq<ToolDelta>, i: int): string {
    if calls == [] then ""
    else Fragments(calls[..|calls| - 1], i) + if calls[|calls| - 1].index == i then calls[|calls| - 1].arguments else ""
  }

  /** The id and the name that the first fragment of an index gives. */
  function FirstOf(calls: seq<ToolDelta>, i: int): Option<(string, string)> {
    if calls == [] then None
    else
      var before := FirstOf(calls[..|calls| - 1], i);
      var last := calls[|calls| - 1];
      if before.None? && last.index == i then Some((last.id, last.name)) else before
  }

  /** The tool calls are exactly those the fragments make up. */
  ghost predicate MadeUp(tools: map<int, ToolText>, calls: seq<ToolDelta>) {
    (forall i :: CallMade(tools, calls, i)) && IdsApart(tools)
  }

  ghost predicate CallMade(tools: map<int, ToolText>, calls: seq<ToolDelta>, i: int) {
    && (i in tools <==> FirstOf(calls, i).Some?)
    && (i in tools ==> tools[i] == ToolText(FirstOf(calls, i).value.0, FirstOf(calls, i).value.1, Fragments(calls, i)))
  }

  ghost predicate IdsApart(tools: map<int, ToolText>) {
    forall i, j :: i in tools && j in tools && i != j ==> tools[i].id != tools[j].id
  }

  lemma FragmentAdded(calls: seq<ToolDelta>, t: ToolDelta, i: int)
    ensures Fragments(calls + [t], i) == Fragments(calls, i) + if t.index == i then t.arguments else ""
    ensures FirstOf(calls + [t], i) == if FirstOf(calls, i).None? && t.index == i then Some((t.id, t.name)) else FirstOf(calls, i)
  {
    assert (calls + [t])[..|calls|] == calls;
  }

  lemma {:induction false} NoFragments(calls: seq<ToolDelta>, i: int)
    requires FirstOf(calls, i).None?
    ensures Fragments(calls, i) == ""
  {
    if calls != [] { NoFragments(calls[..|calls| - 1], i); }
  }

  lemma CallAdds(r: Reading, t: ToolDelta, calls: seq<ToolDelta>)
    requires MadeUp(r.tools, calls) && CallTool(r, t).ending.fault.None?
    ensures MadeUp(CallTool(r, t).tools, calls + [t])
  {
    forall i
      ensures CallMade(CallTool(r, t).tools, calls + [t], i)
    {
      CallAddsAt(r, t, calls, i);
    }
    IdsStayApart(r, t);
  }

  lemma IdsStayApart(r: Reading, t: ToolDelta)
    requires IdsApart(r.tools) && CallTool(r, t).ending.fault.None?
    ensures IdsApart(CallTool(r, t).tools)
  {
  }

  lemma CallAddsAt(r: Reading, t: ToolDelta, calls: seq<ToolDelta>, i: int)
    requires CallMade(r.tools, calls, i) && CallTool(r, t).ending.fault.None?
    ensures CallMade(CallTool(r, t).tools, calls + [t], i)
  {
    FragmentAdded(calls, t, i);
    if FirstOf(calls, i).None? { NoFragments(calls, i); }
    assert Fragments(calls, i) + "" == Fragments(calls, i) && "" + t.arguments == t.arguments;
  }

  lemma {:induction false} CallsAdd(r: Reading, more: seq<ToolDelta>, calls: seq<ToolDelta>)
    requires MadeUp(r.tools, calls) && CallTools(r, more).ending.fault.None?
    ensures MadeUp(CallTools(r, more).tools, calls + more)
  {
    if more == [] {
      assert calls + more == calls;
    } else {
      var most, last := more[..|more| - 1], more[|more| - 1];
      CallsAdd(r, most, calls);
      CallAdds(CallTools(r, most), last, calls + most);
      assert calls + more == calls + most + [last];
    }
  }

  lemma {:induction false} DeltasConcat(a: seq<Choice>, b: seq<Choice>)
    ensures Deltas(a + b) == Deltas(a) + Deltas(b)
  {
    if b == [] {
      assert a + b == a;
    } else {
      DeltasConcat(a, b[..|b| - 1]);
      assert (a + b)[..|a + b| - 1] == a + b[..|b| - 1];
      Seqs.Assoc(Deltas(a), Deltas(b[..|b| - 1]), b[|b| - 1].toolCalls);
    }
  }

  // ---- being finished ----

  predicate Finishes(c: Choice) { !Blankish(c.finishReason) }

  ghost predicate Finished(cs: seq<Choice>) { exists i :: 0 <= i < |cs| && Finishes(cs[i]) }

  lemma ProseKeepsTerminal(r: Reading, c: Choice)
    ensures ReadProse(r, c).ending.terminal == r.ending.terminal && ReadProse(r, c).ending.stopSequence == r.ending.stopSequence
  {
    BeforeProseEnding(r, c);
    WriteKeepsTerminal(Write(BeforeProse(r, c), c.content), c.refusal);
  }

  lemma WriteKeepsTerminal(r: Reading, s: string)
    ensures Refuse(r, s).ending.terminal == r.ending.terminal && Refuse(r, s).ending.stopSequence == r.ending.stopSequence
  {
    assert Write(r, s).ending == r.ending;
  }

  lemma {:induction false} CallsKeepTerminal(r: Reading, calls: seq<ToolDelta>)
    ensures CallTools(r, calls).ending.terminal == r.ending.terminal && CallTools(r, calls).ending.stopSequence == r.ending.stopSequence
  {
    if calls != [] { CallsKeepTerminal(r, calls[..|calls| - 1]); }
  }

  lemma {:induction false} FinishedConcat(a: seq<Choice>, b: seq<Choice>)
    ensures Finished(a + b) <==> Finished(a) || Finished(b)
  {
    if i :| 0 <= i < |a| && Finishes(a[i]) {
      assert Finishes((a + b)[i]);
    }
    if i :| 0 <= i < |b| && Finishes(b[i]) {
      assert Finishes((a + b)[|a| + i]);
    }
    if i :| 0 <= i < |a + b| && Finishes((a + b)[i]) {
      assert if i < |a| then Finishes(a[i]) else Finishes(b[i - |a|]);
    }
  }

  /** A finished stream has a last finish reason. */
  lemma {:induction false} SomeLastFinish(cs: seq<Choice>) returns (i: int)
    requires Finished(cs)
    ensures LastFinish(cs, i)
  {
    var n := |cs| - 1;
    if Finishes(cs[n]) {
      i := n;
    } else {
      FinishedConcat(cs[..n], [cs[n]]);
      assert cs == cs[..n] + [cs[n]];
      i := SomeLastFinish(cs[..n]);
    }
  }

  // ---- the whole stream ----

  /** The reading says what the choices say. */
  ghost predicate SaysAll(r: Reading, cs: seq<Choice>) {
    && r.prose.text == Said(cs) && MadeUp(r.tools, Deltas(cs)) && (r.ending.terminal <==> Finished(cs))
    && r.ending.stopSequence == SequenceOf(cs)
  }

  /** The stop sequence that is named last. */
  function SequenceOf(cs: seq<Choice>): string {
    if cs == [] then ""
    else if cs[|cs| - 1].stopSequence != "" then cs[|cs| - 1].stopSequence else SequenceOf(cs[..|cs| - 1])
  }

  lemma ChoiceSays(r: Reading, c: Choice, cs: seq<Choice>)
    requires SaysAll(r, cs) && ReadChoice(r, c).ending.fault.None?
    ensures SaysAll(ReadChoice(r, c), cs + [c])
  {
    var prose := ReadProse(r, c);
    var called := CallTools(prose, c.toolCalls);
    ProseAddsText(r, c);
    ProseKeepsTerminal(r, c);
    CallsKeepText(prose, c.toolCalls);
    CallsKeepTerminal(prose, c.toolCalls);
    CallsAdd(prose, c.toolCalls, Deltas(cs));
    TailSays(called, c);
    assert (cs + [c])[..|cs|] == cs;
    FinishedOne(cs, c);
  }

  lemma FinishedOne(cs: seq<Choice>, c: Choice)
    ensures Finished(cs + [c]) <==> Finished(cs) || Finishes(c)
  {
    FinishedConcat(cs, [c]);
    assert Finished([c]) <==> Finishes(c) by {
      assert Finishes(c) ==> Finishes([c][0]);
    }
  }

  lemma TailSays(r: Reading, c: Choice)
    ensures ReadTail(r, c).prose.text == r.prose.text && ReadTail(r, c).tools == r.tools
    ensures ReadTail(r, c).ending.terminal <==> r.ending.terminal || Finishes(c)
    ensures ReadTail(r, c).ending.stopSequence == if c.stopSequence != "" then c.stopSequence else r.ending.stopSequence
  {
    CitationsKeepText(r, c.citations);
    CitationsKeepEnding(r, c.citations);
  }

  /** What one choice keeps. */
  ghost predicate Kept(holds: (Reading, seq<Choice>) -> bool) {
    forall r, c, cs :: holds(r, cs) && ReadChoice(r, c).ending.fault.None? ==> holds(ReadChoice(r, c), cs + [c])
  }

  /** What ending a stream keeps. */
  ghost predicate EndingApart(holds: (Reading, seq<Choice>) -> bool) {
    forall r, cs, ended: bool :: holds(r, cs) ==> holds(r.(ending := r.ending.(ended := ended)), cs)
  }

  lemma {:induction false} KeptByChoices(holds: (Reading, seq<Choice>) -> bool, r: Reading, more: seq<Choice>, cs: seq<Choice>)
    requires Kept(holds) && holds(r, cs) && ReadChoices(r, more).ending.fault.None?
    ensures holds(ReadChoices(r, more), cs + more)
  {
    if more == [] {
      assert cs + more == cs;
    } else {
      var most, last := more[..|more| - 1], more[|more| - 1];
      KeptByChoices(holds, r, most, cs);
      assert cs + more == cs + most + [last];
    }
  }

  lemma {:induction false} KeptByEvents(holds: (Reading, seq<Choice>) -> bool, events: seq<Event>)
    requires Kept(holds) && EndingApart(holds) && holds(Blank, []) && ReadEvents(events).ending.fault.None?
    ensures holds(ReadEvents(events), ChoicesRead(events))
  {
    if events != [] {
      var before, e := events[..|events| - 1], events[|events| - 1];
      var r := ReadEvents(before);
      EventStop(r, e);
      KeptByEvents(holds, before);
      if e.Chunk? && !r.ending.ended {
        KeptByChoices(holds, r, e.choices, ChoicesRead(before));
      }
    }
  }

  lemma SaysKept()
    ensures Kept(SaysAll) && EndingApart(SaysAll)
  {
    forall r, c, cs | SaysAll(r, cs) && ReadChoice(r, c).ending.fault.None?
      ensures SaysAll(ReadChoice(r, c), cs + [c])
    {
      ChoiceSays(r, c, cs);
    }
  }

  /** A stream read without a fault says what its choices say. */
  lemma EventsSay(events: seq<Event>)
    requires ReadEvents(events).ending.fault.None?
    ensures SaysAll(ReadEvents(events), ChoicesRead(events))
  {
    SaysKept();
    KeptByEvents(SaysAll, events);
  }

  /** The stop reason a stream reports that ends without a fault: such a stream has a last
      finish reason, and a refusal message turns a normal finish into "refusal" exactly
      when it arrives in a later choice. */
  lemma StopReasonExactly(events: seq<Event>) returns (i: int)
    requires Read(events).ending.fault.None?
    ensures LastFinish(ChoicesRead(events), i) && StopReportedAs(Read(events).ending, ChoicesRead(events), i)
  {
    EventsSay(events);
    i := SomeLastFinish(ChoicesRead(events));
    ReportedStopReason(events, i);
  }
}
