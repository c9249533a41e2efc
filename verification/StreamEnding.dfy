/** Facts about the reading itself: which stop reason a stream ends with, and that
    what was read of a reasoning item is never taken back. */
module StreamEnding {
  import opened Text
  import opened StreamReading

  // ---- the stop reason ----

  /** The choices that are read, in order. Nothing after [DONE] is. */
  function ChoicesRead(events: seq<Event>): seq<Choice> {
    if events == [] then []
    else
      var before := ChoicesRead(events[..|events| - 1]);
      var e := events[|events| - 1];
      if e.Chunk? && !ReadEvents(events[..|events| - 1]).ending.ended then before + e.choices else before
  }

  /** Choice `i` states the last finish reason of the stream. */
  ghost predicate LastFinish(cs: seq<Choice>, i: int) {
    && 0 <= i < |cs| && !Blankish(cs[i].finishReason)
    && forall j :: i < j < |cs| ==> Blankish(cs[j].finishReason)
  }

  ghost predicate RefusedAfter(cs: seq<Choice>, i: int) { exists j :: 0 <= j < |cs| && i < j && cs[j].refusal != "" }

  function StopAfter(stop: string, c: Choice): string {
    var refused := if c.refusal != "" && stop == "end_turn" then "refusal" else stop;
    if Blankish(c.finishReason) then refused else FinishToAnthropic(c.finishReason)
  }

  function StopAfterAll(stop: string, cs: seq<Choice>): string {
    if cs == [] then stop else StopAfter(StopAfterAll(stop, cs[..|cs| - 1]), cs[|cs| - 1])
  }

  lemma {:induction false} StopConcat(stop: string, a: seq<Choice>, b: seq<Choice>)
    ensures StopAfterAll(stop, a + b) == StopAfterAll(StopAfterAll(stop, a), b)
  {
    if b == [] {
      assert a + b == a;
    } else {
      assert (a + b)[..|a + b| - 1] == a + b[..|b| - 1];
      StopConcat(stop, a, b[..|b| - 1]);
    }
  }

  lemma {:induction false} ToolsKeepStop(r: Reading, calls: seq<ToolDelta>)
    ensures CallTools(r, calls).ending.stopReason == r.ending.stopReason
  {
    if calls != [] {
      ToolsKeepStop(r, calls[..|calls| - 1]);
    }
  }

  lemma {:induction false} CitationsKeepEnding(r: Reading, citations: seq<string>)
    ensures CiteAll(r, citations).ending == r.ending
  {
    if citations != [] {
      CitationsKeepEnding(r, citations[..|citations| - 1]);
    }
  }

  lemma ReasoningKeepsEnding(r: Reading, c: Choice)
    ensures Sign(Think(SwitchReasoning(r, c.reasoningId), c.thinking), c.signature).ending == r.ending
  {
    var r0 := SwitchReasoning(r, c.reasoningId);
    assert r0.ending == r.ending && Think(r0, c.thinking).ending == r0.ending;
  }

  lemma SearchKeepsEnding(r: Reading, item: SearchItem, done: bool)
    ensures Search(r, item, done).ending == r.ending
  {
  }

  lemma RefuseStop(r: Reading, s: string)
    ensures Refuse(r, s).ending.stopReason == if s != "" && r.ending.stopReason == "end_turn" then "refusal" else r.ending.stopReason
  {
    assert Write(r, s).ending == r.ending;
  }

  /** What a choice comes to before its text is written. */
  function BeforeProse(r: Reading, c: Choice): Reading {
    var r1 := Sign(Think(SwitchReasoning(r, c.reasoningId), c.thinking), c.signature);
    var r2 := if c.reasoningDone then Leave(r1) else r1;
    if c.search.Some? then Search(r2, c.search.value, c.searchDone) else r2
  }

  lemma BeforeProseEnding(r: Reading, c: Choice)
    ensures BeforeProse(r, c).ending == r.ending
    ensures ReadProse(r, c) == Refuse(Write(BeforeProse(r, c), c.content), c.refusal)
  {
    var r1 := Sign(Think(SwitchReasoning(r, c.reasoningId), c.thinking), c.signature);
    var r2 := if c.reasoningDone then Leave(r1) else r1;
    ReasoningKeepsEnding(r, c);
    if c.search.Some? {
      SearchKeepsEnding(r2, c.search.value, c.searchDone);
    }
  }

  lemma WriteKeepsEnding(r: Reading, s: string)
    ensures Write(r, s).ending == r.ending
  {
  }

  lemma ProseStop(r: Reading, c: Choice)
    ensures ReadProse(r, c).ending.stopReason == if c.refusal != "" && r.ending.stopReason == "end_turn" then "refusal" else r.ending.stopReason
  {
    var b := BeforeProse(r, c);
    BeforeProseEnding(r, c);
    WriteKeepsEnding(b, c.content);
    RefuseStop(Write(b, c.content), c.refusal);
  }

  lemma ChoiceStop(r: Reading, c: Choice)
    requires ReadChoice(r, c).ending.fault.None?
    ensures ReadChoice(r, c).ending.stopReason == StopAfter(r.ending.stopReason, c)
  {
    var called := CallTools(ReadProse(r, c), c.toolCalls);
    ProseStop(r, c);
    ToolsKeepStop(ReadProse(r, c), c.toolCalls);
    CitationsKeepEnding(called, c.citations);
  }

  lemma {:induction false} ChoicesStop(r: Reading, cs: seq<Choice>)
    requires ReadChoices(r, cs).ending.fault.None?
    ensures ReadChoices(r, cs).ending.stopReason == StopAfterAll(r.ending.stopReason, cs)
  {
    if cs != [] {
      ChoicesStop(r, cs[..|cs| - 1]);
      ChoiceStop(ReadChoices(r, cs[..|cs| - 1]), cs[|cs| - 1]);
    }
  }

  lemma EventStop(r: Reading, e: Event)
    requires ReadEvent(r, e).ending.fault.None?
    ensures r.ending.fault.None?
    ensures ReadEvent(r, e).ending.stopReason ==
            if e.Chunk? && !r.ending.ended then StopAfterAll(r.ending.stopReason, e.choices) else r.ending.stopReason
  {
    if e.Chunk? && !r.ending.ended && r.ending.fault.None? {
      ChoicesStop(r, e.choices);
    }
  }

  lemma {:induction false} EventsStop(events: seq<Event>)
    requires ReadEvents(events).ending.fault.None?
    ensures ReadEvents(events).ending.stopReason == StopAfterAll("", ChoicesRead(events))
  {
    if events != [] {
      var before, e := events[..|events| - 1], events[|events| - 1];
      EventStop(ReadEvents(before), e);
      EventsStop(before);
      if e.Chunk? && !ReadEvents(before).ending.ended {
        StopConcat("", ChoicesRead(before), e.choices);
      }
    }
  }

  /** Without a finish reason only a refusal can change the stop reason. */
  lemma {:induction false} StopWithoutFinish(stop: string, cs: seq<Choice>)
    requires forall c :: c in cs ==> Blankish(c.finishReason)
    ensures StopAfterAll(stop, cs) == if stop == "end_turn" && RefusedAfter(cs, -1) then "refusal" else stop
  {
    if cs != [] {
      var n := |cs| - 1;
      StopWithoutFinish(stop, cs[..n]);
      RefusedSplit(cs);
    }
  }

  lemma RefusedSplit(cs: seq<Choice>)
    requires cs != []
    ensures RefusedAfter(cs, -1) <==> RefusedAfter(cs[..|cs| - 1], -1) || cs[|cs| - 1].refusal != ""
  {
    var n := |cs| - 1;
    if RefusedAfter(cs[..n], -1) {
      var j :| 0 <= j < n && cs[..n][j].refusal != "";
      assert cs[j].refusal != "";
    }
    if RefusedAfter(cs, -1) && cs[n].refusal == "" {
      var j :| 0 <= j < |cs| && cs[j].refusal != "";
      assert cs[..n][j].refusal != "";
    }
  }

  lemma RefusedTail(cs: seq<Choice>, i: int)
    requires 0 <= i < |cs|
    ensures RefusedAfter(cs, i) <==> RefusedAfter(cs[i + 1..], -1)
  {
    if RefusedAfter(cs, i) {
      var j :| 0 <= j < |cs| && i < j && cs[j].refusal != "";
      assert cs[i + 1..][j - i - 1].refusal != "";
    }
    if RefusedAfter(cs[i + 1..], -1) {
      var j :| 0 <= j < |cs[i + 1..]| && cs[i + 1..][j].refusal != "";
      assert cs[i + 1 + j].refusal != "";
    }
  }

  lemma StopOfLast(cs: seq<Choice>, i: int)
    requires LastFinish(cs, i)
    ensures StopAfterAll("", cs) == StopAfterAll(FinishToAnthropic(cs[i].finishReason), cs[i + 1..])
    ensures forall c :: c in cs[i + 1..] ==> Blankish(c.finishReason)
  {
    assert cs == cs[..i + 1] + cs[i + 1..];
    assert cs[..i + 1][..i] == cs[..i];
    StopConcat("", cs[..i + 1], cs[i + 1..]);
  }

  /** Is this the finish reason, but for case and the white space around it? */
  predicate IsReason(finish: string, word: string) { Lower(Trim(finish)) == word }

  function WordFor(finish: string, refused: bool): string {
    if IsReason(finish, "tool_calls") || IsReason(finish, "tool_use") then "tool_use"
    else if IsReason(finish, "length") || IsReason(finish, "max_tokens") then "max_tokens"
    else if IsReason(finish, "content_filter") || IsReason(finish, "refusal") || refused then "refusal"
    else "end_turn"
  }

  /** The stop reason in Anthropic's words, when choice `i` is the last that finishes. */
  ghost function StopWord(stopSequence: string, cs: seq<Choice>, i: int): string
    requires 0 <= i < |cs|
  {
    if stopSequence != "" then "stop_sequence" else WordFor(cs[i].finishReason, RefusedAfter(cs, i))
  }

  ghost predicate StopReportedAs(e: Ending, cs: seq<Choice>, i: int)
    requires 0 <= i < |cs|
  {
    FinalStopReason(e) == StopWord(e.stopSequence, cs, i)
  }

  lemma WordsFit(finish: string, refused: bool)
    ensures WordFor(finish, refused) ==
      if FinishToAnthropic(finish) == "end_turn" && refused then "refusal" else FinishToAnthropic(finish)
  {
  }

  lemma LastStop(cs: seq<Choice>, i: int)
    requires LastFinish(cs, i)
    ensures StopAfterAll("", cs) ==
      if FinishToAnthropic(cs[i].finishReason) == "end_turn" && RefusedAfter(cs, i) then "refusal" else FinishToAnthropic(cs[i].finishReason)
  {
    StopOfLast(cs, i);
    StopWithoutFinish(FinishToAnthropic(cs[i].finishReason), cs[i + 1..]);
    RefusedTail(cs, i);
  }

  /** The stop reason a finished stream reports. A refusal message turns a normal
      finish into "refusal" exactly when it arrives in a later choice than the last
      finish reason; no stop sequence may have been named either. */
  lemma ReportedStopReason(events: seq<Event>, i: int)
    requires Read(events).ending.fault.None? && LastFinish(ChoicesRead(events), i)
    ensures StopReportedAs(Read(events).ending, ChoicesRead(events), i)
  {
    var cs := ChoicesRead(events);
    EventsStop(events);
    LastStop(cs, i);
    WordsFit(cs[i].finishReason, RefusedAfter(cs, i));
  }

  const Quiet := Choice("", "", "", false, None, false, "", "", [], [], "", "")

  lemma OneChoice(r: Reading, c: Choice)
    requires r.ending.fault.None?
    ensures ReadChoices(r, [c]) == ReadChoice(r, c)
  {
    assert [c][..0] == [];
  }

  lemma TwoChunks(a: Choice, b: Choice, r1: Reading, r2: Reading)
    requires r1 == ReadChoice(Blank, a) && r1.ending.fault.None? && !r1.ending.ended
    requires r2 == ReadChoice(r1, b) && r2.ending.fault.None? && !r2.ending.ended && r2.ending.terminal
    ensures Read([Chunk([a]), Chunk([b]), Done]) == r2.(ending := r2.ending.(ended := true))
  {
    var e1, e2 := [Chunk([a])], [Chunk([a]), Chunk([b])];
    assert e1[..0] == [] && e2[..1] == e1 && [Chunk([a]), Chunk([b]), Done][..2] == e2;
    OneChoice(Blank, a);
    OneChoice(r1, b);
    assert ReadEvents(e1) == r1 && ReadEvents(e2) == r2;
  }

  lemma RefusalRead(a: Choice)
    requires a == Quiet.(refusal := "no")
    ensures ReadChoice(Blank, a).ending == Blank.ending && ReadChoice(Blank, a).prose.text == "no"
  {
    assert "" + "no" == "no";
    assert ReadProse(Blank, a) == Refuse(Blank, "no");
    assert Refuse(Blank, "no") == Write(Blank, "no");
  }

  lemma OtherLength(a: string, b: string)
    requires |a| != |b|
    ensures a != b
  {
  }

  lemma FourLetters(v: string)
    requires |Trim(v)| == 4
    ensures FinishToAnthropic(v) == "end_turn"
  {
    var reason := Lower(Trim(v));
    OtherLength(reason, "tool_calls");
    OtherLength(reason, "tool_use");
    OtherLength(reason, "length");
    OtherLength(reason, "max_tokens");
    OtherLength(reason, "content_filter");
    OtherLength(reason, "refusal");
  }

  lemma FourLetterWord(s: string)
    requires |s| == 4 && !IsSpace(s[0]) && !IsSpace(s[3])
    ensures FinishToAnthropic(s) == "end_turn"
  {
    NothingToTrim(s);
    FourLetters(s);
  }

  lemma StopIsEndTurn()
    ensures FinishToAnthropic("stop") == "end_turn"
  {
    FourLetterWord("stop");
  }

  lemma FinishRead(r: Reading, b: Choice, stop: string)
    requires b == Quiet.(finishReason := stop) && !Blankish(stop)
    ensures ReadChoice(r, b) ==
            if r.ending.fault.Some? then r else r.(ending := r.ending.(stopReason := FinishToAnthropic(stop), terminal := true))
  {
    assert ReadProse(r, b) == r;
  }

  /** A refusal followed by a normal finish is reported as a normal completion. */
  lemma RefusalReportedAsEndTurn()
    ensures var r := Read([Chunk([Quiet.(refusal := "no")]), Chunk([Quiet.(finishReason := "stop")]), Done]);
            r.ending.fault.None? && r.prose.text == "no" && FinalStopReason(r.ending) == "end_turn"
  {
    var a, b := Quiet.(refusal := "no"), Quiet.(finishReason := "stop");
    var r1 := ReadChoice(Blank, a);
    var r2 := ReadChoice(r1, b);
    RefusalRead(a);
    FinishRead(r1, b, "stop");
    StopIsEndTurn();
    assert r2.ending == Ending("end_turn", "", true, false, None) && r2.prose == r1.prose;
    TwoChunks(a, b, r1, r2);
  }

  // ---- reasoning items only grow ----

  ghost predicate GrownInto(a: Thought, b: Thought) {
    && a.text <= b.text
    && (a.signature.Some? ==> b.signature == a.signature)
    && (a.closed && a.signature.Some? ==> b == a)
  }

  ghost predicate Grown(a: map<string, Thought>, b: map<string, Thought>) {
    forall k :: k in a ==> k in b && GrownInto(a[k], b[k])
  }

  lemma AddingGrows(m: Reasoning, s: string)
    ensures Grown(m.thoughts, AddThinking(m, s).thoughts)
  {
    if m.current in m.thoughts {
      var t := m.thoughts[m.current];
      assert t.text <= t.text + s;
      assert GrownInto(t, t.(text := t.text + s)) || t.closed;
    }
  }

  lemma ThinkGrows(r: Reading, s: string)
    ensures Grown(r.reasoning.thoughts, Think(r, s).reasoning.thoughts)
  {
    var b := BeginItem(EndText(r));
    assert Grown(r.reasoning.thoughts, b.reasoning.thoughts);
    AddingGrows(b.reasoning, s);
    GrowthAddsUp(r.reasoning.thoughts, b.reasoning.thoughts, AddThinking(b.reasoning, s).thoughts);
  }

  lemma SigningGrows(m: Reasoning, s: string)
    ensures Grown(m.thoughts, AddSignature(m, s).thoughts)
  {
  }

  lemma BeginningGrows(r: Reading)
    ensures Grown(r.reasoning.thoughts, BeginItem(r).reasoning.thoughts)
  {
  }

  lemma SignGrows(r: Reading, s: string)
    ensures Grown(r.reasoning.thoughts, Sign(r, s).reasoning.thoughts)
  {
    var b := BeginItem(r);
    BeginningGrows(r);
    SigningGrows(b.reasoning, s);
    GrowthAddsUp(r.reasoning.thoughts, b.reasoning.thoughts, AddSignature(b.reasoning, s).thoughts);
  }

  /** Text, searches and the like at most leave the reasoning behind. */
  lemma LeftAtMost(r: Reading, item: SearchItem, done: bool, s: string)
    ensures Search(r, item, done).reasoning == r.reasoning || Search(r, item, done).reasoning == LeaveReasoning(r.reasoning)
    ensures Write(r, s).reasoning == r.reasoning || Write(r, s).reasoning == LeaveReasoning(r.reasoning)
  {
  }

  lemma LeavingGrows(m: Reasoning)
    ensures Grown(m.thoughts, LeaveReasoning(m).thoughts)
  {
  }

  lemma GrowthAddsUp(a: map<string, Thought>, b: map<string, Thought>, c: map<string, Thought>)
    requires Grown(a, b) && Grown(b, c)
    ensures Grown(a, c)
  {
  }

  lemma DeltasGrow(r: Reading, c: Choice)
    ensures Grown(r.reasoning.thoughts, Sign(Think(SwitchReasoning(r, c.reasoningId), c.thinking), c.signature).reasoning.thoughts)
  {
    var r0 := SwitchReasoning(r, c.reasoningId);
    var r1 := Think(r0, c.thinking);
    LeavingGrows(r.reasoning);
    ThinkGrows(r0, c.thinking);
    SignGrows(r1, c.signature);
    assert Grown(r.reasoning.thoughts, r0.reasoning.thoughts);
    GrowthAddsUp(r.reasoning.thoughts, r0.reasoning.thoughts, r1.reasoning.thoughts);
    GrowthAddsUp(r.reasoning.thoughts, r1.reasoning.thoughts, Sign(r1, c.signature).reasoning.thoughts);
  }

  lemma SearchGrows(r: Reading, item: SearchItem, done: bool)
    ensures Grown(r.reasoning.thoughts, Search(r, item, done).reasoning.thoughts)
  {
    LeftAtMost(r, item, done, "");
    LeavingGrows(r.reasoning);
  }

  lemma TextGrows(r: Reading, s: string)
    ensures Grown(r.reasoning.thoughts, Write(r, s).reasoning.thoughts)
  {
    LeftAtMost(r, SearchItem("", "", ""), false, s);
    LeavingGrows(r.reasoning);
  }

  lemma SearchAndTextGrow(r: Reading, c: Choice)
    ensures var r1 := if c.search.Some? then Search(r, c.search.value, c.searchDone) else r;
            Grown(r.reasoning.thoughts, Write(Write(r1, c.content), c.refusal).reasoning.thoughts)
  {
    var r1 := if c.search.Some? then Search(r, c.search.value, c.searchDone) else r;
    var r2 := Write(r1, c.content);
    if c.search.Some? { SearchGrows(r, c.search.value, c.searchDone); }
    TextGrows(r1, c.content);
    TextGrows(r2, c.refusal);
    GrowthAddsUp(r.reasoning.thoughts, r1.reasoning.thoughts, r2.reasoning.thoughts);
    GrowthAddsUp(r.reasoning.thoughts, r2.reasoning.thoughts, Write(r2, c.refusal).reasoning.thoughts);
  }

  lemma ProseGrows(r: Reading, c: Choice)
    ensures Grown(r.reasoning.thoughts, ReadProse(r, c).reasoning.thoughts)
  {
    var r1 := Sign(Think(SwitchReasoning(r, c.reasoningId), c.thinking), c.signature);
    var r2 := if c.reasoningDone then Leave(r1) else r1;
    var r3 := if c.search.Some? then Search(r2, c.search.value, c.searchDone) else r2;
    DeltasGrow(r, c);
    LeavingGrows(r1.reasoning);
    SearchAndTextGrow(r2, c);
    assert ReadProse(r, c) == Refuse(Write(r3, c.content), c.refusal);
    assert ReadProse(r, c).reasoning == Write(Write(r3, c.content), c.refusal).reasoning;
    GrowthAddsUp(r.reasoning.thoughts, r1.reasoning.thoughts, r2.reasoning.thoughts);
    GrowthAddsUp(r.reasoning.thoughts, r2.reasoning.thoughts, ReadProse(r, c).reasoning.thoughts);
  }

  lemma {:induction false} ToolsGrow(r: Reading, calls: seq<ToolDelta>)
    ensures Grown(r.reasoning.thoughts, CallTools(r, calls).reasoning.thoughts)
  {
    if calls != [] {
      var n := |calls| - 1;
      ToolsGrow(r, calls[..n]);
      var b := CallTools(r, calls[..n]);
      LeavingGrows(b.reasoning);
      assert CallTool(b, calls[n]).reasoning == b.reasoning || CallTool(b, calls[n]).reasoning == Leave(b).reasoning;
    }
  }

  lemma {:induction false} CitationsGrow(r: Reading, citations: seq<string>)
    ensures Grown(r.reasoning.thoughts, CiteAll(r, citations).reasoning.thoughts)
  {
    if citations != [] {
      var n := |citations| - 1;
      CitationsGrow(r, citations[..n]);
      var b := CiteAll(r, citations[..n]);
      LeavingGrows(b.reasoning);
      assert Cite(b, citations[n]).reasoning == b.reasoning || Cite(b, citations[n]).reasoning == Leave(b).reasoning;
    }
  }

  lemma ChoiceGrows(r: Reading, c: Choice)
    ensures Grown(r.reasoning.thoughts, ReadChoice(r, c).reasoning.thoughts)
  {
    var called := CallTools(ReadProse(r, c), c.toolCalls);
    ProseGrows(r, c);
    ToolsGrow(ReadProse(r, c), c.toolCalls);
    CitationsGrow(called, c.citations);
    assert ReadTail(called, c).reasoning == CiteAll(called, c.citations).reasoning;
  }

  lemma {:induction false} ChoicesGrow(r: Reading, cs: seq<Choice>)
    ensures Grown(r.reasoning.thoughts, ReadChoices(r, cs).reasoning.thoughts)
  {
    if cs != [] {
      ChoicesGrow(r, cs[..|cs| - 1]);
      ChoiceGrows(ReadChoices(r, cs[..|cs| - 1]), cs[|cs| - 1]);
    }
  }

  /** Whatever follows, a named item keeps the text it has, its first signature
      stays its signature, and a signed item that was left behind never changes. */
  lemma {:induction false} ThoughtsNeverChange(events: seq<Event>, n: nat)
    requires n <= |events|
    ensures Grown(ReadEvents(events[..n]).reasoning.thoughts, ReadEvents(events).reasoning.thoughts)
  {
    if n == |events| {
      assert events[..n] == events;
    } else {
      var before, e := events[..|events| - 1], events[|events| - 1];
      assert before[..n] == events[..n];
      ThoughtsNeverChange(before, n);
      if e.Chunk? {
        ChoicesGrow(ReadEvents(before), e.choices);
      }
    }
  }
}
