/** The frames that a stream causes: what a client gets is the part of them that the writer
    accepts. */
module StreamSending {
  import opened AnthropicClient
  import opened StreamReading
  import opened StreamState
  import opened StreamRun
  import Sets

  // ---- nothing that was sent is taken back ----

  ghost predicate Grows(s: State, t: State) { s.wire.sent <= t.wire.sent }

  lemma TextGrows(s: State, text: string)
    ensures Grows(s, DetachThinking(s)) && Grows(s, CloseText(s)) && Grows(s, OpenText(s))
    ensures Grows(s, CloseTextualBlocks(s)) && Grows(s, WriteText(s, text))
  {
  }

  lemma ThinkingGrows(s: State, value: string)
    ensures Grows(s, AttachThinking(s)) && Grows(s, WriteThinking(s, value)) && Grows(s, WriteSignature(s, value))
  {
    TextGrows(s, "");
  }

  lemma ToolGrows(s: State, t: ToolDelta)
    ensures Grows(s, WriteToolCall(s, t))
  {
    TextGrows(s, "");
  }

  lemma SearchGrows(s: State, item: SearchItem, done: bool)
    ensures Grows(s, OpenSearch(s, item.id)) && Grows(s, WriteSearch(s, item, done))
  {
    TextGrows(s, "");
  }

  lemma CitationGrows(s: State, citation: string)
    ensures Grows(s, WriteCitation(s, citation))
  {
    TextGrows(s, "");
    TextGrows(CloseTextualBlocks(s), "");
  }

  lemma {:induction false} CitationsGrow(s: State, citations: seq<string>)
    ensures Grows(s, WriteCitations(s, citations))
  {
    if citations != [] {
      CitationsGrow(s, citations[..|citations| - 1]);
      CitationGrows(WriteCitations(s, citations[..|citations| - 1]), citations[|citations| - 1]);
    }
  }

  lemma ReasoningGrows(s: State, c: Choice)
    ensures Grows(s, WriteReasoning(s, c))
  {
    var s1 := SetReasoning(s, c.reasoningId);
    TextGrows(s, "");
    assert Grows(s, s1);
    ThinkingGrows(s1, c.thinking);
    ThinkingGrows(if c.thinking != "" then WriteThinking(s1, c.thinking) else s1, c.signature);
  }

  lemma DoneGrows(s: State, c: Choice)
    ensures Grows(s, WriteDone(s, c))
  {
    var s1 := if c.reasoningDone then DetachThinking(s) else s;
    TextGrows(s, "");
    if c.search.Some? { SearchGrows(s1, c.search.value, c.searchDone); }
  }

  lemma ContentGrows(s: State, c: Choice)
    ensures Grows(s, WriteContent(s, c))
  {
    TextGrows(s, c.content);
    TextGrows(if c.content != "" then WriteText(s, c.content) else s, c.refusal);
  }

  lemma Further(s: State, t: State, u: State)
    requires Grows(s, t) && Grows(t, u)
    ensures Grows(s, u)
  {
  }

  lemma ProseGrows(u: Run, c: Choice)
    ensures Grows(u.state, RunProse(u, c).state)
  {
    var s1 := WriteReasoning(u.state, c);
    var s2 := WriteDone(s1, c);
    ReasoningGrows(u.state, c);
    DoneGrows(s1, c);
    ContentGrows(s2, c);
    Further(u.state, s1, s2);
    Further(u.state, s2, WriteContent(s2, c));
  }

  lemma {:induction false} ToolsGrow(u: Run, calls: seq<ToolDelta>)
    ensures Grows(u.state, RunTools(u, calls).state)
  {
    if calls != [] {
      ToolsGrow(u, calls[..|calls| - 1]);
      ToolGrows(RunTools(u, calls[..|calls| - 1]).state, calls[|calls| - 1]);
    }
  }

  lemma ChoiceGrows(u: Run, c: Choice)
    ensures Grows(u.state, RunChoice(u, c).state)
  {
    ProseGrows(u, c);
    ToolsGrow(RunProse(u, c), c.toolCalls);
    CitationsGrow(RunTools(RunProse(u, c), c.toolCalls).state, c.citations);
  }

  lemma {:induction false} ChoicesGrow(u: Run, choices: seq<Choice>)
    ensures Grows(u.state, RunChoices(u, choices).state)
  {
    if choices != [] {
      ChoicesGrow(u, choices[..|choices| - 1]);
      ChoiceGrows(RunChoices(u, choices[..|choices| - 1]), choices[|choices| - 1]);
    }
  }

  lemma {:induction false} EventsGrow(events: seq<Event>, k: nat)
    requires k <= |events|
    ensures Grows(RunEvents(events[..k]).state, RunEvents(events).state)
  {
    if k == |events| {
      assert events[..k] == events;
    } else {
      var n := |events| - 1;
      assert events[..n][..k] == events[..k];
      EventsGrow(events[..n], k);
      if events[n].Chunk? { ChoicesGrow(RunEvents(events[..n]), events[n].choices); }
    }
  }

  lemma {:induction false} ClosingGrows(w: Wire, keys: seq<int>)
    ensures w.sent <= CloseAll(w, keys).sent
  {
    if keys != [] { ClosingGrows(w, keys[..|keys| - 1]); }
  }

  // ---- all frames of a stream ----

  /** `keys` are the elements of `s` in ascending order. */
  ghost predicate Lists(keys: seq<int>, s: set<int>) {
    (forall i, j :: 0 <= i < j < |keys| ==> keys[i] < keys[j]) && (forall x :: x in s <==> x in keys)
  }

  /** There is one such order. */
  lemma {:induction false} OneListing(keys: seq<int>, keys': seq<int>, s: set<int>)
    requires Lists(keys, s) && Lists(keys', s)
    ensures keys == keys'
    decreases |keys|
  {
    SomeListed(keys, s);
    SomeListed(keys', s);
    if keys != [] {
      assert keys[0] in keys' && keys'[0] in keys;
      assert keys[0] == keys'[0];
      Shorter(keys, s);
      Shorter(keys', s);
      OneListing(keys[1..], keys'[1..], s - {keys[0]});
      assert keys == [keys[0]] + keys[1..] && keys' == [keys'[0]] + keys'[1..];
    }
  }

  lemma SomeListed(keys: seq<int>, s: set<int>)
    requires Lists(keys, s)
    ensures keys == [] <==> s == {}
  {
    assert |keys| > 0 ==> keys[0] in keys && keys[0] in s;
    if s != {} {
      var x := Sets.Member(s);
      assert x in keys;
    }
  }

  lemma Shorter(keys: seq<int>, s: set<int>)
    requires Lists(keys, s) && keys != []
    ensures Lists(keys[1..], s - {keys[0]})
  {
    assert forall x :: x in keys <==> x == keys[0] || x in keys[1..];
  }

  lemma {:induction false} Smallest(s: set<int>) returns (least: int)
    requires s != {}
    ensures least in s && forall x :: x in s ==> least <= x
  {
    least := Sets.Member(s);
    if s != {least} {
      assert s - {least} != {};
      var other := Smallest(s - {least});
      assert forall x :: x in s ==> x == least || x in s - {least};
      if other < least { least := other; }
    }
  }

  lemma {:induction false} SomeListing(s: set<int>) returns (keys: seq<int>)
    ensures Lists(keys, s)
  {
    if s == {} {
      keys := [];
    } else {
      var least := Smallest(s);
      var rest := SomeListing(s - {least});
      assert forall i :: 0 <= i < |rest| ==> rest[i] in rest;
      keys := [least] + rest;
      assert forall x :: x in keys <==> x == least || x in rest;
    }
  }

  /** The run with the fault of a stream that was never finished. */
  function FinalRun(events: seq<Event>): Run {
    var u := RunEvents(events);
    if u.ending.fault.None? && !u.ending.terminal then FailRun(u, ClosedEarly) else u
  }

  /** What ends a message without a fault: the open blocks are closed in order. */
  function ClosedUp(u: Run, keys: seq<int>): seq<Frame> {
    CloseAll(u.state.wire, keys).sent
    + [MessageDelta(FinalStopReason(u.ending), u.ending.stopSequence, |u.state.searches|)] + [MessageStop]
  }

  /** The frames that these events cause, for a writer that accepts everything. */
  ghost predicate Causes(events: seq<Event>, all: seq<Frame>) {
    var u := RunEvents(events);
    if FinalRun(events).ending.fault.Some? then all == u.state.wire.sent + [ErrorFrame]
    else exists keys :: Lists(keys, u.state.wire.open) && all == ClosedUp(u, keys)
  }

  lemma Caused(events: seq<Event>) returns (all: seq<Frame>)
    ensures Causes(events, all)
  {
    var u := RunEvents(events);
    var keys := SomeListing(u.state.wire.open);
    all := if FinalRun(events).ending.fault.Some? then u.state.wire.sent + [ErrorFrame] else ClosedUp(u, keys);
  }

  /** The events decide them. */
  lemma OneCause(events: seq<Event>, all: seq<Frame>, all': seq<Frame>)
    requires Causes(events, all) && Causes(events, all')
    ensures all == all'
  {
    var u := RunEvents(events);
    if FinalRun(events).ending.fault.None? {
      forall keys, keys' | Lists(keys, u.state.wire.open) && Lists(keys', u.state.wire.open)
        ensures keys == keys'
      {
        OneListing(keys, keys', u.state.wire.open);
      }
    }
  }

  /** What is sent after some of the events is the beginning of it. */
  lemma CausedFrom(events: seq<Event>, k: nat, all: seq<Frame>)
    requires k <= |events| && Causes(events, all)
    ensures RunEvents(events[..k]).state.wire.sent <= all
  {
    var u := RunEvents(events);
    EventsGrow(events, k);
    if FinalRun(events).ending.fault.None? {
      var keys :| Lists(keys, u.state.wire.open) && all == ClosedUp(u, keys);
      ClosingGrows(u.state.wire, keys);
    }
  }
}
