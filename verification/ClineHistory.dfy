/** Rendering a conversation for Cline, with every tool result paired to a call before it. */
module ClineHistory {
  import opened Text
  import Seqs

  /** A content block. A tool call without an id gets a minted one. */
  datatype Block =
    | TextBlock(text: string)
    | ThinkingBlock(thinking: string)
    | ToolUse(id: string, minted: string, name: string, input: string)
    | ToolResult(toolUseID: string, result: string)
    | OtherBlock

  datatype Content = Str(text: string) | Blocks(blocks: seq<Block>)

  datatype Message = Message(role: string, content: Content, reasoning: string)

  datatype Call = Call(id: string, name: string, arguments: string)

  /** A rendered message. The parts of a text are joined by newlines on the wire. */
  datatype ChatMessage =
    | Said(role: string, parts: seq<string>, reasoning: string)
    | Assistant(parts: seq<string>, reasoning: string, calls: seq<Call>)
    | Tool(toolCallID: string, content: string)

  // ---- the events of a conversation ----

  datatype Event =
    | Reason(reasoning: string)
    | Say(role: string, text: string)
    | Invoke(call: Call)
    | Answer(id: string, result: string)

  /** Is there a call with this id before position `i`, and no result for the id since? */
  ghost predicate OpenAt(events: seq<Event>, i: nat, id: string)
    requires i <= |events|
  {
    exists j :: 0 <= j < i && IsCall(events[j], id) && Unanswered(events, j, i, id)
  }

  predicate IsCall(e: Event, id: string) { e.Invoke? && e.call.id == id }

  predicate IsAnswer(e: Event, id: string) { e.Answer? && e.id == id }

  ghost predicate Unanswered(events: seq<Event>, j: int, i: nat, id: string)
    requires i <= |events|
  {
    forall m :: 0 <= m && j < m < i ==> !IsAnswer(events[m], id)
  }

  /** A result is kept if it answers an open call; everything else is kept anyway. */
  ghost predicate KeptAt(events: seq<Event>, i: nat)
    requires i < |events|
  {
    events[i].Answer? ==> events[i].id != "" && OpenAt(events, i, events[i].id)
  }

  ghost function Kept(events: seq<Event>, n: nat): seq<Event>
    requires n <= |events|
  {
    if n == 0 then [] else Kept(events, n - 1) + if KeptAt(events, n - 1) then [events[n - 1]] else []
  }

  lemma OpenSame(events: seq<Event>, more: seq<Event>, i: nat, id: string)
    requires i <= |events|
    ensures OpenAt(events + more, i, id) <==> OpenAt(events, i, id)
  {
    var all := events + more;
    forall j | 0 <= j < i
      ensures IsCall(all[j], id) && Unanswered(all, j, i, id) <==> IsCall(events[j], id) && Unanswered(events, j, i, id)
    {
      assert all[j] == events[j];
      assert forall m :: 0 <= m && j < m < i ==> all[m] == events[m];
    }
  }

  lemma {:induction false} KeptSame(events: seq<Event>, more: seq<Event>, n: nat)
    requires n <= |events|
    ensures Kept(events + more, n) == Kept(events, n)
  {
    if n > 0 {
      KeptSame(events, more, n - 1);
      assert (events + more)[n - 1] == events[n - 1];
      if events[n - 1].Answer? { OpenSame(events, more, n - 1, events[n - 1].id); }
    }
  }

  /** A call stays open if no result for it comes. */
  lemma StaysOpen(events: seq<Event>, e: Event, id: string)
    requires OpenAt(events, |events|, id) && !IsAnswer(e, id)
    ensures OpenAt(events + [e], |events| + 1, id)
  {
    var all := events + [e];
    var j :| 0 <= j < |events| && IsCall(events[j], id) && Unanswered(events, j, |events|, id);
    assert forall m :: 0 <= m < |events| ==> all[m] == events[m];
    assert IsCall(all[j], id) && Unanswered(all, j, |all|, id);
  }

  /** An open call was open before or has just been made. */
  lemma WasOpen(events: seq<Event>, e: Event, id: string)
    requires OpenAt(events + [e], |events| + 1, id) && !IsCall(e, id)
    ensures OpenAt(events, |events|, id) && !IsAnswer(e, id)
  {
    var all := events + [e];
    var j :| 0 <= j < |all| && IsCall(all[j], id) && Unanswered(all, j, |all|, id);
    assert all[|events|] == e;
    assert forall m :: 0 <= m < |events| ==> all[m] == events[m];
    assert IsCall(events[j], id) && Unanswered(events, j, |events|, id);
  }

  lemma JustCalled(events: seq<Event>, e: Event, id: string)
    requires IsCall(e, id)
    ensures OpenAt(events + [e], |events| + 1, id)
  {
    var all := events + [e];
    assert IsCall(all[|events|], id) && Unanswered(all, |events|, |all|, id);
  }

  lemma KeptMore(events: seq<Event>, e: Event)
    ensures Kept(events + [e], |events| + 1) == Kept(events, |events|)
      + if e.Answer? ==> e.id != "" && OpenAt(events, |events|, e.id) then [e] else []
  {
    KeptSame(events, [e], |events|);
    if e.Answer? { OpenSame(events, [e], |events|, e.id); }
  }

  /** What one more event does to the open calls and to what is kept. */
  lemma OneMore(events: seq<Event>, e: Event, id: string)
    ensures OpenAt(events + [e], |events| + 1, id) <==> (IsCall(e, id) || (OpenAt(events, |events|, id) && !IsAnswer(e, id)))
    ensures Kept(events + [e], |events| + 1) == Kept(events, |events|)
      + if e.Answer? ==> e.id != "" && OpenAt(events, |events|, e.id) then [e] else []
  {
    KeptMore(events, e);
    if IsCall(e, id) {
      JustCalled(events, e, id);
    } else {
      if OpenAt(events, |events|, id) && !IsAnswer(e, id) { StaysOpen(events, e, id); }
      if OpenAt(events + [e], |events| + 1, id) { WasOpen(events, e, id); }
    }
  }

  // ---- counting ----

  function CallCount(events: seq<Event>, id: string): nat {
    if events == [] then 0
    else CallCount(events[..|events| - 1], id) + if IsCall(events[|events| - 1], id) then 1 else 0
  }

  function AnswerCount(events: seq<Event>, id: string): nat {
    if events == [] then 0
    else AnswerCount(events[..|events| - 1], id) + if IsAnswer(events[|events| - 1], id) then 1 else 0
  }

  /** In no prefix are there more answers to an id than calls of it. */
  ghost predicate Paired(events: seq<Event>) {
    forall k, id :: 0 <= k <= |events| ==> AnswerCount(events[..k], id) <= CallCount(events[..k], id)
  }

  lemma PairedMore(events: seq<Event>, e: Event)
    requires Paired(events) && forall id :: AnswerCount(events + [e], id) <= CallCount(events + [e], id)
    ensures Paired(events + [e])
  {
    forall k, id | 0 <= k <= |events| + 1
      ensures AnswerCount((events + [e])[..k], id) <= CallCount((events + [e])[..k], id)
    {
      assert k <= |events| ==> (events + [e])[..k] == events[..k];
      assert k == |events| + 1 ==> (events + [e])[..k] == events + [e];
    }
  }

  ghost function AllKept(events: seq<Event>): seq<Event> { Kept(events, |events|) }

  ghost predicate Spare(events: seq<Event>, id: string) {
    AnswerCount(AllKept(events), id) + (if OpenAt(events, |events|, id) then 1 else 0) <= CallCount(AllKept(events), id)
  }

  lemma SpareMore(events: seq<Event>, e: Event, id: string)
    requires Spare(events, id)
    ensures Spare(events + [e], id)
  {
    var before := AllKept(events);
    OneMore(events, e, id);
    assert (before + [e])[..|before|] == before;
    assert before + [] == before;
  }

  /** What is kept is paired, with one call to spare where one is open. */
  lemma {:induction false} KeptPaired(events: seq<Event>)
    ensures Paired(AllKept(events)) && forall id :: Spare(events, id)
  {
    if events == [] {
      forall k, id | 0 <= k <= 0
        ensures AnswerCount([][..k], id) <= CallCount([][..k], id)
      {
      }
    } else {
      var most, e := events[..|events| - 1], events[|events| - 1];
      assert events == most + [e];
      KeptPaired(most);
      forall id
        ensures Spare(events, id)
      {
        SpareMore(most, e, id);
      }
      OneMore(most, e, "");
      assert AllKept(most) + [] == AllKept(most);
      if AllKept(events) == AllKept(most) + [e] {
        forall id
          ensures AnswerCount(AllKept(most) + [e], id) <= CallCount(AllKept(most) + [e], id)
        {
          assert Spare(events, id);
        }
        PairedMore(AllKept(most), e);
      }
    }
  }

  // ---- rendering ----

  /** What a rendered message says, in order. */
  function Flat(m: ChatMessage): seq<Event> {
    match m
    case Said(role, parts, reasoning) => Reasons(reasoning) + Says(role, parts)
    case Assistant(parts, reasoning, calls) => Reasons(reasoning) + (Says("assistant", parts) + Invokes(calls))
    case Tool(id, content) => [Answer(id, content)]
  }

  function Reasons(reasoning: string): seq<Event> { if reasoning == "" then [] else [Reason(reasoning)] }

  function Says(role: string, parts: seq<string>): seq<Event> {
    if parts == [] then [] else Says(role, parts[..|parts| - 1]) + [Say(role, parts[|parts| - 1])]
  }

  function Invokes(calls: seq<Call>): seq<Event> {
    if calls == [] then [] else Invokes(calls[..|calls| - 1]) + [Invoke(calls[|calls| - 1])]
  }

  function FlatAll(out: seq<ChatMessage>): seq<Event> {
    if out == [] then [] else FlatAll(out[..|out| - 1]) + Flat(out[|out| - 1])
  }

  predicate Blank(s: string) { Trim(s) == "" }

  function TextEvents(role: string, text: string): seq<Event> { if Blank(text) then [] else [Say(role, text)] }

  /** What the blocks of a user or system message say, in order. */
  function BlockEvents(role: string, blocks: seq<Block>): seq<Event> {
    if blocks == [] then []
    else BlockEvents(role, blocks[..|blocks| - 1]) + BlockEvent(role, blocks[|blocks| - 1])
  }

  function BlockEvent(role: string, b: Block): seq<Event> {
    match b
    case TextBlock(text) => TextEvents(role, text)
    case ToolResult(id, result) => [Answer(Trim(id), result)]
    case _ => []
  }

  /** The texts and the calls of an assistant message. Its calls come after its texts. */
  function Texts(blocks: seq<Block>): seq<string> {
    if blocks == [] then [] else Texts(blocks[..|blocks| - 1]) + TextIn(blocks[|blocks| - 1])
  }

  function TextIn(b: Block): seq<string> { if b.TextBlock? && !Blank(b.text) then [b.text] else [] }

  function Calls(blocks: seq<Block>): seq<Call> {
    if blocks == [] then [] else Calls(blocks[..|blocks| - 1]) + CallIn(blocks[|blocks| - 1])
  }

  function CallIn(b: Block): seq<Call> { if b.ToolUse? && !Blank(b.name) then [CallOf(b)] else [] }

  function CallOf(b: Block): Call
    requires b.ToolUse?
  {
    Call(if Blank(b.id) then b.minted else Trim(b.id), Trim(b.name), b.input)
  }

  /** Is this the call that the block asks for? It has the block's name and input, and the
      block's id or, where that is blank, a minted one. */
  predicate AsksFor(b: Block, c: Call) {
    && b.ToolUse? && Trim(b.name) != "" && c.name == Trim(b.name) && c.arguments == b.input
    && c.id == if Trim(b.id) == "" then b.minted else Trim(b.id)
  }

  lemma OneAskedFor(b: Block, c: Call)
    ensures c in CallIn(b) <==> AsksFor(b, c)
  {
  }

  lemma {:induction false} CallsAmong(blocks: seq<Block>, c: Call, asks: Block -> bool)
    requires forall i :: 0 <= i < |blocks| ==> (c in CallIn(blocks[i]) <==> asks(blocks[i]))
    ensures c in Calls(blocks) <==> Among(blocks, asks)
  {
    if blocks != [] {
      var n := |blocks| - 1;
      forall i | 0 <= i < n
        ensures c in CallIn(blocks[..n][i]) <==> asks(blocks[..n][i])
      {
        assert blocks[..n][i] == blocks[i];
      }
      CallsAmong(blocks[..n], c, asks);
      AmongMore(blocks, asks);
      InEither(Calls(blocks[..n]), CallIn(blocks[n]), c);
    }
  }

  ghost predicate Among(blocks: seq<Block>, p: Block -> bool) { exists i :: 0 <= i < |blocks| && p(blocks[i]) }

  lemma AmongMore(blocks: seq<Block>, p: Block -> bool)
    requires blocks != []
    ensures Among(blocks, p) <==> Among(blocks[..|blocks| - 1], p) || p(blocks[|blocks| - 1])
  {
    var n := |blocks| - 1;
    assert forall i :: 0 <= i < n ==> blocks[..n][i] == blocks[i];
  }

  lemma InEither(a: seq<Call>, b: seq<Call>, c: Call)
    ensures c in a + b <==> c in a || c in b
  {
  }

  /** The calls of an assistant message are those that its blocks ask for. */
  lemma CallsAskedFor(blocks: seq<Block>, c: Call)
    ensures c in Calls(blocks) <==> Among(blocks, (b: Block) => AsksFor(b, c))
  {
    var asks := (b: Block) => AsksFor(b, c);
    forall i | 0 <= i < |blocks|
      ensures c in CallIn(blocks[i]) <==> asks(blocks[i])
    {
      OneAskedFor(blocks[i], c);
    }
    CallsAmong(blocks, c, asks);
  }

  /** The reasoning of an assistant message: its own, or that of its first thinking block
      that has any. */
  function ThoughtOf(reasoning: string, blocks: seq<Block>): string {
    if blocks == [] then Trim(reasoning)
    else
      var before, last := ThoughtOf(reasoning, blocks[..|blocks| - 1]), blocks[|blocks| - 1];
      if last.ThinkingBlock? && before == "" then Trim(last.thinking) else before
  }

  function AssistantEvents(reasoning: string, blocks: seq<Block>): seq<Event> {
    Reasons(ThoughtOf(reasoning, blocks)) + (Says("assistant", Texts(blocks)) + Invokes(Calls(blocks)))
  }

  /** Every message says something. */
  ghost predicate Spoken(out: seq<ChatMessage>) { forall i :: 0 <= i < |out| ==> Flat(out[i]) != [] }

  /** The set of pending calls names exactly the open ones. */
  ghost predicate Tracks(pending: set<string>, events: seq<Event>) {
    forall id :: id != "" ==> (id in pending <==> OpenAt(events, |events|, id))
  }

  lemma TracksMore(pending: set<string>, events: seq<Event>, e: Event)
    requires Tracks(pending, events)
    ensures e.Say? || e.Reason? ==> Tracks(pending, events + [e]) && AllKept(events + [e]) == AllKept(events) + [e]
    ensures e.Invoke? ==> Tracks(pending + {e.call.id}, events + [e]) && AllKept(events + [e]) == AllKept(events) + [e]
    ensures e.Answer? ==>
      && Tracks(pending - {e.id}, events + [e])
      && AllKept(events + [e]) == AllKept(events) + if e.id != "" && e.id in pending then [e] else []
  {
    forall id: string {
      OneMore(events, e, id);
    }
    OneMore(events, e, "");
    assert e.Answer? ==> Tracks(pending - {e.id}, events + [e]);
  }

  lemma {:induction false} TracksSays(pending: set<string>, events: seq<Event>, role: string, parts: seq<string>)
    requires Tracks(pending, events)
    ensures Tracks(pending, events + Says(role, parts)) && AllKept(events + Says(role, parts)) == AllKept(events) + Says(role, parts)
  {
    if parts == [] {
      assert events + [] == events && AllKept(events) + [] == AllKept(events);
    } else {
      var most, e := parts[..|parts| - 1], Say(role, parts[|parts| - 1]);
      TracksSays(pending, events, role, most);
      TracksMore(pending, events + Says(role, most), e);
      Seqs.Assoc(events, Says(role, most), [e]);
      Seqs.Assoc(AllKept(events), Says(role, most), [e]);
    }
  }

  lemma TracksReasons(pending: set<string>, events: seq<Event>, reasoning: string)
    requires Tracks(pending, events)
    ensures Tracks(pending, events + Reasons(reasoning)) && AllKept(events + Reasons(reasoning)) == AllKept(events) + Reasons(reasoning)
  {
    if reasoning == "" {
      assert events + [] == events && AllKept(events) + [] == AllKept(events);
    } else {
      TracksMore(pending, events, Reason(reasoning));
    }
  }

  /** An assistant message: its reasoning, its texts and its calls. */
  lemma TracksAssistant(pending: set<string>, events: seq<Event>, reasoning: string, parts: seq<string>, calls: seq<Call>)
    requires Tracks(pending, events)
    ensures var more := Reasons(reasoning) + (Says("assistant", parts) + Invokes(calls));
      Tracks(pending + Ids(calls), events + more) && AllKept(events + more) == AllKept(events) + more
  {
    var first, second, third := Reasons(reasoning), Says("assistant", parts), Invokes(calls);
    TracksReasons(pending, events, reasoning);
    TracksSays(pending, events + first, "assistant", parts);
    TracksInvokes(pending, events + first + second, calls);
    Regrouped(events, first, second, third);
    Regrouped(AllKept(events), first, second, third);
  }

  lemma Regrouped(a: seq<Event>, b: seq<Event>, c: seq<Event>, d: seq<Event>)
    ensures a + b + c + d == a + (b + (c + d))
  {
  }

  function Ids(calls: seq<Call>): set<string> { set c | c in calls :: c.id }

  lemma {:induction false} TracksInvokes(pending: set<string>, events: seq<Event>, calls: seq<Call>)
    requires Tracks(pending, events)
    ensures Tracks(pending + Ids(calls), events + Invokes(calls))
    ensures AllKept(events + Invokes(calls)) == AllKept(events) + Invokes(calls)
  {
    if calls == [] {
      assert events + [] == events && AllKept(events) + [] == AllKept(events) && pending + Ids([]) == pending;
    } else {
      var most, last := calls[..|calls| - 1], calls[|calls| - 1];
      TracksInvokes(pending, events, most);
      TracksMore(pending + Ids(most), events + Invokes(most), Invoke(last));
      Seqs.Assoc(events, Invokes(most), [Invoke(last)]);
      Seqs.Assoc(AllKept(events), Invokes(most), [Invoke(last)]);
      assert calls == most + [last];
      assert pending + Ids(most) + {last.id} == pending + Ids(calls);
    }
  }

  lemma FlatMore(out: seq<ChatMessage>, m: ChatMessage)
    ensures FlatAll(out + [m]) == FlatAll(out) + Flat(m)
  {
    assert (out + [m])[..|out|] == out;
  }

  lemma SaysMore(before: seq<Event>, flat: seq<Event>, role: string, parts: seq<string>, t: string)
    ensures before + (flat + Says(role, parts + [t])) == before + (flat + Says(role, parts)) + [Say(role, t)]
  {
    assert (parts + [t])[..|parts|] == parts;
    Seqs.Assoc(flat, Says(role, parts), [Say(role, t)]);
  }

  /** Sends the text that has been collected as one message. */
  method Flush(out: seq<ChatMessage>, role: string, pending: seq<string>) returns (r: seq<ChatMessage>)
    ensures FlatAll(r) == FlatAll(out) + Says(role, pending)
    ensures Spoken(out) ==> Spoken(r)
  {
    r := out;
    if pending != [] {
      FlatMore(out, Said(role, pending, ""));
      assert [] + Says(role, pending) == Says(role, pending);
      r := out + [Said(role, pending, "")];
    } else {
      assert FlatAll(out) + [] == FlatAll(out);
    }
  }

  ghost predicate Collected(reasoning: string, blocks: seq<Block>, text: seq<string>, thought: string, calls: seq<Call>) {
    text == Texts(blocks) && calls == Calls(blocks) && thought == ThoughtOf(reasoning, blocks)
  }

  function ThoughtIn(thought: string, b: Block): string {
    if b.ThinkingBlock? && thought == "" then Trim(b.thinking) else thought
  }

  lemma CollectedMore(reasoning: string, blocks: seq<Block>, k: nat, text: seq<string>, thought: string, calls: seq<Call>)
    requires k < |blocks| && Collected(reasoning, blocks[..k], text, thought, calls)
    ensures Collected(reasoning, blocks[..k + 1], text + TextIn(blocks[k]), ThoughtIn(thought, blocks[k]), calls + CallIn(blocks[k]))
  {
    assert blocks[..k + 1][..k] == blocks[..k];
  }

  lemma CollectedAll(reasoning: string, blocks: seq<Block>, text: seq<string>, thought: string, calls: seq<Call>)
    requires Collected(reasoning, blocks[..|blocks|], text, thought, calls)
    ensures Collected(reasoning, blocks, text, thought, calls)
  {
    assert blocks[..|blocks|] == blocks;
  }

  /** The texts, the reasoning and the calls among the blocks of an assistant message. */
  method Collect(reasoning: string, blocks: seq<Block>) returns (text: seq<string>, thought: string, calls: seq<Call>)
    ensures Collected(reasoning, blocks, text, thought, calls)
  {
    text, thought, calls := [], Trim(reasoning), [];
    var k := 0;
    assert blocks[..0] == [];
    while k < |blocks|
      invariant 0 <= k <= |blocks| && Collected(reasoning, blocks[..k], text, thought, calls)
    {
      CollectedMore(reasoning, blocks, k, text, thought, calls);
      text := text + TextIn(blocks[k]);
      calls := calls + CallIn(blocks[k]);
      if blocks[k].ThinkingBlock? && thought == "" {
        thought := Trim(blocks[k].thinking);
      }
      k := k + 1;
    }
    CollectedAll(reasoning, blocks, text, thought, calls);
  }

  /** What has been rendered of a message, and the text collected for the next one. */
  ghost function Rendered(base: seq<Event>, out: seq<ChatMessage>, role: string, pending: seq<string>): seq<Event> {
    base + (FlatAll(out) + Says(role, pending))
  }

  lemma NothingSaid(events: seq<Event>)
    ensures events + [] == events
  {
  }

  lemma RenderedText(base: seq<Event>, out: seq<ChatMessage>, role: string, pending: seq<string>, t: string)
    ensures Rendered(base, out, role, pending + [t]) == Rendered(base, out, role, pending) + [Say(role, t)]
  {
    SaysMore(base, FlatAll(out), role, pending, t);
  }

  class Renderer {
    var pendingToolCalls: set<string>

    // Everything the conversation has said so far.
    ghost var events: seq<Event>

    ghost predicate Valid()
      reads this
    {
      Tracks(pendingToolCalls, events)
    }

    constructor ()
      ensures Valid() && events == []
    {
      pendingToolCalls, events := {}, [];
    }

    /** Maps the blocks of an assistant message onto one message, if they say anything. */
    method ConvertAssistant(reasoning: string, blocks: seq<Block>) returns (message: ChatMessage, ok: bool)
      requires Valid()
      modifies this
      ensures Valid() && events == old(events) + AssistantEvents(reasoning, blocks)
      ensures Flat(message) == AssistantEvents(reasoning, blocks) && (ok <==> Flat(message) != [])
      ensures AllKept(events) == AllKept(old(events)) + Flat(message)
    {
      var text, thought, calls := Collect(reasoning, blocks);
      message, ok := Assistant(text, thought, calls), text != [] || calls != [] || thought != "";
      TracksAssistant(pendingToolCalls, events, thought, text, calls);
      pendingToolCalls := pendingToolCalls + Ids(calls);
      events := events + AssistantEvents(reasoning, blocks);
    }

    /** A result is kept if its call is pending, and then the call no longer is. */
    method AddResult(id: string, result: string) returns (kept: bool)
      requires Valid()
      modifies this
      ensures Valid() && events == old(events) + [Answer(id, result)]
      ensures AllKept(events) == AllKept(old(events)) + if kept then [Answer(id, result)] else []
    {
      TracksMore(pendingToolCalls, events, Answer(id, result));
      events := events + [Answer(id, result)];
      kept := id != "" && id in pendingToolCalls;
      if kept {
        pendingToolCalls := pendingToolCalls - {id};
      }
    }

    ghost method Hear(e: Event)
      requires Valid() && (e.Say? || e.Reason?)
      modifies `events
      ensures Valid() && events == old(events) + [e]
      ensures AllKept(events) == AllKept(old(events)) + [e]
    {
      TracksMore(pendingToolCalls, events, e);
      events := events + [e];
    }

    method ConvertBlock(role: string, b: Block, out: seq<ChatMessage>, pending: seq<string>, ghost base: seq<Event>)
      returns (out': seq<ChatMessage>, pending': seq<string>)
      requires Valid() && AllKept(events) == Rendered(base, out, role, pending)
      modifies this
      ensures Valid() && events == old(events) + BlockEvent(role, b)
      ensures AllKept(events) == Rendered(base, out', role, pending')
      ensures Spoken(out) ==> Spoken(out')
    {
      out', pending' := out, pending;
      match b {
        case TextBlock(t) => pending' := ConvertText(role, t, out, pending, base);
        case ToolResult(id, result) =>
          out' := ConvertResult(role, Trim(id), result, out, pending, base);
          pending' := [];
        case ThinkingBlock(_) => NothingSaid(events);
        case ToolUse(_, _, _, _) => NothingSaid(events);
        case OtherBlock => NothingSaid(events);
      }
    }

    method ConvertText(role: string, t: string, ghost out: seq<ChatMessage>, pending: seq<string>, ghost base: seq<Event>)
      returns (pending': seq<string>)
      requires Valid() && AllKept(events) == Rendered(base, out, role, pending)
      modifies `events
      ensures Valid() && events == old(events) + TextEvents(role, t)
      ensures AllKept(events) == Rendered(base, out, role, pending')
    {
      pending' := pending;
      if Blank(t) {
        assert events + [] == events;
      } else {
        RenderedText(base, out, role, pending, t);
        Hear(Say(role, t));
        pending' := pending + [t];
      }
    }

    method ConvertResult(role: string, id: string, result: string, out: seq<ChatMessage>, pending: seq<string>, ghost base: seq<Event>)
      returns (out': seq<ChatMessage>)
      requires Valid() && AllKept(events) == Rendered(base, out, role, pending)
      modifies this
      ensures Valid() && events == old(events) + [Answer(id, result)]
      ensures AllKept(events) == Rendered(base, out', role, [])
      ensures Spoken(out) ==> Spoken(out')
    {
      out' := Flush(out, role, pending);
      var kept := AddResult(id, result);
      if kept {
        FlatMore(out', Tool(id, result));
        Seqs.Assoc(base, FlatAll(out'), [Answer(id, result)]);
        out' := out' + [Tool(id, result)];
      }
      assert FlatAll(out') + [] == FlatAll(out');
    }

    /** Maps the blocks of a user or system message, each kept tool result onto a message
        of its own. */
    method ConvertBlocks(role: string, blocks: seq<Block>) returns (out: seq<ChatMessage>)
      requires Valid()
      modifies this
      ensures Valid() && events == old(events) + BlockEvents(role, blocks)
      ensures AllKept(events) == AllKept(old(events)) + FlatAll(out)
      ensures Spoken(out)
    {
      ghost var before, base := events, AllKept(events);
      var pending: seq<string>;
      out, pending := [], [];
      var k := 0;
      while k < |blocks|
        invariant 0 <= k <= |blocks| && Valid()
        invariant events == before + BlockEvents(role, blocks[..k])
        invariant AllKept(events) == Rendered(base, out, role, pending) && Spoken(out)
      {
        assert blocks[..k + 1][..k] == blocks[..k];
        Seqs.Assoc(before, BlockEvents(role, blocks[..k]), BlockEvent(role, blocks[k]));
        out, pending := ConvertBlock(role, blocks[k], out, pending, base);
        k := k + 1;
      }
      assert blocks[..k] == blocks;
      out := Flush(out, role, pending);
    }
  }

  // ---- the whole conversation ----

  /** Roles as Cline knows them. */
  function RoleOf(role: string): string {
    var r := Lower(Trim(role));
    if r == "" || r == "user" then "user" else if r == "developer" then "system" else r
  }

  /** A message as it is rendered: only an assistant's text keeps its reasoning. */
  function Replayed(m: Message): Message {
    Message(RoleOf(m.role), m.content, if m.content.Str? && !EqualFold(Trim(m.role), "assistant") then "" else m.reasoning)
  }

  function AllReplayed(messages: seq<Message>): (r: seq<Message>)
    ensures |r| == |messages|
  {
    seq(|messages|, i requires 0 <= i < |messages| => Replayed(messages[i]))
  }

  function MessageEvents(m: Message): seq<Event> {
    match m.content
    case Str(text) => if Blank(text) then [] else Reasons(Trim(m.reasoning)) + [Say(m.role, text)]
    case Blocks(blocks) => if m.role == "assistant" then AssistantEvents(m.reasoning, blocks) else BlockEvents(m.role, blocks)
  }

  function Conversation(system: seq<string>, messages: seq<Message>): seq<Event> {
    if messages == [] then SystemEvents(system)
    else
      Conversation(system, messages[..|messages| - 1]) + MessageEvents(messages[|messages| - 1])
  }

  function SystemEvents(system: seq<string>): seq<Event> {
    if system == [] then []
    else
      SystemEvents(system[..|system| - 1]) + TextEvents("system", system[|system| - 1])
  }

  // ---- what a conversation says ----

  /** Roles are read without case and surrounding white space; no role is a user's, and a
      developer speaks for the system. */
  lemma RolesAre(role: string)
    ensures Lower(Trim(role)) in ["", "user"] ==> RoleOf(role) == "user"
    ensures Lower(Trim(role)) in ["developer", "system"] ==> RoleOf(role) == "system"
    ensures Lower(Trim(role)) !in ["", "user", "developer", "system"] ==> RoleOf(role) == Lower(Trim(role))
  {
  }

  /** Does the message hold this text? */
  predicate HoldsText(m: Message, t: string) {
    !Blank(t) && match m.content case Str(text) => text == t case Blocks(blocks) => TextBlock(t) in blocks
  }

  lemma {:induction false} SayAmong(role: string, parts: seq<string>, e: Event)
    ensures e in Says(role, parts) <==> e.Say? && e.role == role && e.text in parts
  {
    if parts != [] {
      SayAmong(role, parts[..|parts| - 1], e);
      assert parts == parts[..|parts| - 1] + [parts[|parts| - 1]];
    }
  }

  lemma {:induction false} TextsAmong(blocks: seq<Block>, t: string)
    ensures t in Texts(blocks) <==> !Blank(t) && TextBlock(t) in blocks
  {
    if blocks != [] {
      TextsAmong(blocks[..|blocks| - 1], t);
      OneText(blocks[|blocks| - 1], t);
      assert blocks == blocks[..|blocks| - 1] + [blocks[|blocks| - 1]];
    }
  }

  lemma OneText(b: Block, t: string)
    ensures t in TextIn(b) <==> !Blank(t) && b == TextBlock(t)
  {
  }

  lemma OneBlockSays(role: string, b: Block, r: string, t: string)
    ensures Say(r, t) in BlockEvent(role, b) <==> r == role && !Blank(t) && b == TextBlock(t)
  {
  }

  lemma EventInEither(a: seq<Event>, b: seq<Event>, e: Event)
    ensures e in a + b <==> e in a || e in b
  {
  }

  lemma {:induction false} EventsAmong(role: string, blocks: seq<Block>, e: Event, says: Block -> bool)
    requires forall i :: 0 <= i < |blocks| ==> (e in BlockEvent(role, blocks[i]) <==> says(blocks[i]))
    ensures e in BlockEvents(role, blocks) <==> Among(blocks, says)
  {
    if blocks != [] {
      var n := |blocks| - 1;
      forall i | 0 <= i < n
        ensures e in BlockEvent(role, blocks[..n][i]) <==> says(blocks[..n][i])
      {
        assert blocks[..n][i] == blocks[i];
      }
      EventsAmong(role, blocks[..n], e, says);
      AmongMore(blocks, says);
      EventInEither(BlockEvents(role, blocks[..n]), BlockEvent(role, blocks[n]), e);
    }
  }

  lemma BlocksSay(role: string, blocks: seq<Block>, r: string, t: string)
    ensures Say(r, t) in BlockEvents(role, blocks) <==> r == role && !Blank(t) && TextBlock(t) in blocks
  {
    var says := (b: Block) => r == role && !Blank(t) && b == TextBlock(t);
    forall i | 0 <= i < |blocks|
      ensures Say(r, t) in BlockEvent(role, blocks[i]) <==> says(blocks[i])
    {
      OneBlockSays(role, blocks[i], r, t);
    }
    EventsAmong(role, blocks, Say(r, t), says);
  }

  lemma {:induction false} OnlyInvokes(calls: seq<Call>, e: Event)
    ensures e in Invokes(calls) <==> e.Invoke? && e.call in calls
  {
    if calls != [] {
      OnlyInvokes(calls[..|calls| - 1], e);
      assert calls == calls[..|calls| - 1] + [calls[|calls| - 1]];
    }
  }

  lemma AssistantSays(reasoning: string, blocks: seq<Block>, r: string, t: string)
    ensures Say(r, t) in AssistantEvents(reasoning, blocks) <==> r == "assistant" && !Blank(t) && TextBlock(t) in blocks
  {
    SayAmong("assistant", Texts(blocks), Say(r, t));
    TextsAmong(blocks, t);
    OnlyInvokes(Calls(blocks), Say(r, t));
  }

  lemma StringMessageSays(m: Message, r: string, t: string)
    requires m.content.Str?
    ensures Say(r, t) in MessageEvents(m) <==> r == m.role && HoldsText(m, t)
  {
    StringSays(m.role, m.content.text, Trim(m.reasoning), r, t);
  }

  lemma BlocksMessageSays(m: Message, r: string, t: string)
    requires m.content.Blocks?
    ensures Say(r, t) in MessageEvents(m) <==> r == m.role && !Blank(t) && TextBlock(t) in m.content.blocks
  {
    if m.role == "assistant" {
      AssistantSays(m.reasoning, m.content.blocks, r, t);
    } else {
      BlocksSay(m.role, m.content.blocks, r, t);
    }
  }

  /** A message says exactly the texts it holds, in its role. */
  lemma MessageSays(m: Message, r: string, t: string)
    ensures Say(r, t) in MessageEvents(m) <==> r == m.role && HoldsText(m, t)
  {
    if m.content.Str? { StringMessageSays(m, r, t); } else { BlocksMessageSays(m, r, t); }
  }

  lemma StringSays(role: string, text: string, reasoning: string, r: string, t: string)
    ensures Say(r, t) in Reasons(reasoning) + [Say(role, text)] <==> r == role && t == text
  {
  }

  predicate Answers(b: Block, id: string, result: string) { b.ToolResult? && Trim(b.toolUseID) == id && b.result == result }

  lemma OneBlockAnswers(role: string, b: Block, id: string, result: string)
    ensures Answer(id, result) in BlockEvent(role, b) <==> Answers(b, id, result)
  {
  }

  /** A user's or system's message answers exactly with its results. */
  lemma BlocksAnswer(role: string, blocks: seq<Block>, id: string, result: string)
    ensures Answer(id, result) in BlockEvents(role, blocks) <==> Among(blocks, (b: Block) => Answers(b, id, result))
  {
    var answers := (b: Block) => Answers(b, id, result);
    forall i | 0 <= i < |blocks|
      ensures Answer(id, result) in BlockEvent(role, blocks[i]) <==> answers(blocks[i])
    {
      OneBlockAnswers(role, blocks[i], id, result);
    }
    EventsAmong(role, blocks, Answer(id, result), answers);
  }

  ghost predicate AnyMessage(messages: seq<Message>, p: Message -> bool) { exists i :: 0 <= i < |messages| && p(messages[i]) }

  /** A conversation says exactly the texts of its system prompt and of its messages. */
  lemma {:induction false} ConversationSays(system: seq<string>, messages: seq<Message>, r: string, t: string)
    ensures Say(r, t) in Conversation(system, messages) <==>
      (r == "system" && !Blank(t) && t in system) || AnyMessage(messages, (m: Message) => r == m.role && HoldsText(m, t))
  {
    if messages == [] {
      SystemSays(system, r, t);
    } else {
      var n := |messages| - 1;
      ConversationSays(system, messages[..n], r, t);
      MessageSays(messages[n], r, t);
      EventInEither(Conversation(system, messages[..n]), MessageEvents(messages[n]), Say(r, t));
      AnyMessageMore(messages, (m: Message) => r == m.role && HoldsText(m, t));
    }
  }

  lemma AnyMessageMore(messages: seq<Message>, p: Message -> bool)
    requires messages != []
    ensures AnyMessage(messages, p) <==> AnyMessage(messages[..|messages| - 1], p) || p(messages[|messages| - 1])
  {
    var n := |messages| - 1;
    assert forall i :: 0 <= i < n ==> messages[..n][i] == messages[i];
  }

  lemma MemberMore(system: seq<string>, t: string)
    requires system != []
    ensures t in system <==> t in system[..|system| - 1] || t == system[|system| - 1]
  {
    assert system == system[..|system| - 1] + [system[|system| - 1]];
  }

  lemma OneTextSays(role: string, text: string, r: string, t: string)
    ensures Say(r, t) in TextEvents(role, text) <==> r == role && !Blank(t) && t == text
  {
  }

  lemma {:induction false} SystemSays(system: seq<string>, r: string, t: string)
    ensures Say(r, t) in SystemEvents(system) <==> r == "system" && !Blank(t) && t in system
  {
    if system != [] {
      var most, last := system[..|system| - 1], system[|system| - 1];
      SystemSays(most, r, t);
      OneTextSays("system", last, r, t);
      EventInEither(SystemEvents(most), TextEvents("system", last), Say(r, t));
      MemberMore(system, t);
    }
  }

  lemma OneSaid(role: string, text: string, reasoning: string)
    ensures Flat(Said(role, [text], reasoning)) == Reasons(reasoning) + [Say(role, text)]
  {
    assert [text][..0] == [];
    assert Says(role, [text]) == Says(role, []) + [Say(role, text)];
  }

  lemma OneMessage(m: ChatMessage)
    ensures FlatAll([m]) == Flat(m)
  {
    FlatMore([], m);
    assert [] + [m] == [m] && [] + Flat(m) == Flat(m);
  }

  method RenderText(r: Renderer, role: string, text: string, reasoning: string) returns (out: seq<ChatMessage>)
    requires r.Valid()
    modifies r
    ensures r.Valid() && r.events == old(r.events) + if Blank(text) then [] else Reasons(reasoning) + [Say(role, text)]
    ensures reasoning == "" ==> r.events == old(r.events) + TextEvents(role, text)
    ensures AllKept(r.events) == AllKept(old(r.events)) + FlatAll(out) && Spoken(out)
  {
    out := [];
    assert r.events + [] == r.events && AllKept(r.events) + [] == AllKept(r.events);
    if !Blank(text) {
      OneSaid(role, text, reasoning);
      OneMessage(Said(role, [text], reasoning));
      Seqs.Assoc(r.events, Reasons(reasoning), [Say(role, text)]);
      Seqs.Assoc(AllKept(r.events), Reasons(reasoning), [Say(role, text)]);
      assert [] + [Say(role, text)] == [Say(role, text)];
      if reasoning != "" { r.Hear(Reason(reasoning)); }
      r.Hear(Say(role, text));
      out := [Said(role, [text], reasoning)];
    }
  }

  method RenderAssistant(r: Renderer, reasoning: string, blocks: seq<Block>) returns (out: seq<ChatMessage>)
    requires r.Valid()
    modifies r
    ensures r.Valid() && r.events == old(r.events) + AssistantEvents(reasoning, blocks)
    ensures AllKept(r.events) == AllKept(old(r.events)) + FlatAll(out) && Spoken(out)
  {
    var message, ok := r.ConvertAssistant(reasoning, blocks);
    OneMessage(message);
    out := if ok then [message] else [];
  }

  method RenderMessage(r: Renderer, m: Message) returns (out: seq<ChatMessage>)
    requires r.Valid()
    modifies r
    ensures r.Valid() && r.events == old(r.events) + MessageEvents(m)
    ensures AllKept(r.events) == AllKept(old(r.events)) + FlatAll(out) && Spoken(out)
  {
    match m.content {
      case Str(text) => out := RenderText(r, m.role, text, Trim(m.reasoning));
      case Blocks(blocks) =>
        if m.role == "assistant" {
          out := RenderAssistant(r, m.reasoning, blocks);
        } else {
          out := r.ConvertBlocks(m.role, blocks);
        }
    }
  }

  /** What has been rendered so far is what is kept of what has been said so far. */
  ghost predicate RenderedSo(events: seq<Event>, out: seq<ChatMessage>) { AllKept(events) == FlatAll(out) && Spoken(out) }

  lemma RenderedMore(events: seq<Event>, out: seq<ChatMessage>, events': seq<Event>, more: seq<ChatMessage>)
    requires RenderedSo(events, out) && AllKept(events') == AllKept(events) + FlatAll(more) && Spoken(more)
    ensures RenderedSo(events', out + more)
  {
    FlatJoin(out, more);
  }

  lemma SystemMore(system: seq<string>, k: nat)
    requires k < |system|
    ensures SystemEvents(system[..k + 1]) == SystemEvents(system[..k]) + TextEvents("system", system[k])
  {
    assert system[..k + 1][..k] == system[..k];
  }

  method RenderSystem(r: Renderer, system: seq<string>) returns (out: seq<ChatMessage>)
    requires r.Valid() && r.events == []
    modifies r
    ensures r.Valid() && r.events == SystemEvents(system) && RenderedSo(r.events, out)
  {
    out := [];
    var k := 0;
    while k < |system|
      invariant 0 <= k <= |system|
      invariant r.Valid() && r.events == SystemEvents(system[..k]) && RenderedSo(r.events, out)
    {
      SystemMore(system, k);
      ghost var before := r.events;
      var more := RenderText(r, "system", system[k], "");
      RenderedMore(before, out, r.events, more);
      out := out + more;
      k := k + 1;
    }
    assert system[..k] == system;
  }

  lemma {:induction false} FlatJoin(a: seq<ChatMessage>, b: seq<ChatMessage>)
    ensures FlatAll(a + b) == FlatAll(a) + FlatAll(b)
  {
    if b == [] {
      assert a + b == a && FlatAll(a) + [] == FlatAll(a);
    } else {
      var most, last := b[..|b| - 1], b[|b| - 1];
      FlatJoin(a, most);
      assert (a + b)[..|a + b| - 1] == a + most;
      Seqs.Assoc(FlatAll(a), FlatAll(most), Flat(last));
    }
  }

  method RenderAll(system: seq<string>, messages: seq<Message>) returns (out: seq<ChatMessage>)
    ensures FlatAll(out) == AllKept(Conversation(system, messages)) && Spoken(out)
  {
    var r := new Renderer();
    out := RenderSystem(r, system);
    var k := 0;
    while k < |messages|
      invariant 0 <= k <= |messages|
      invariant r.Valid() && r.events == Conversation(system, messages[..k]) && RenderedSo(r.events, out)
    {
      assert messages[..k + 1][..k] == messages[..k];
      ghost var before := r.events;
      var more := RenderMessage(r, messages[k]);
      RenderedMore(before, out, r.events, more);
      out := out + more;
      k := k + 1;
    }
    assert messages[..k] == messages;
  }

  function StandIn(prompt: string): ChatMessage { Said("user", [if Blank(prompt) then "hello" else Trim(prompt)], "") }

  /** Renders a conversation: all that was said with its reasoning and every call, and of
      the results those that answer an open call, in the order of the conversation. No
      message is empty. A conversation that renders to nothing is stood in for by the
      prompt. */
  method BuildMessages(system: seq<string>, messages: seq<Message>, prompt: string) returns (out: seq<ChatMessage>)
    ensures out != [] && Spoken(out)
    ensures var kept := AllKept(Conversation(system, AllReplayed(messages)));
      if kept == [] then out == [StandIn(prompt)] else FlatAll(out) == kept
  {
    out := RenderAll(system, AllReplayed(messages));
    NothingFlat(out);
    if out == [] {
      out := [StandIn(prompt)];
    }
  }

  /** Messages that all say something say nothing only if there are none. */
  lemma NothingFlat(out: seq<ChatMessage>)
    requires Spoken(out)
    ensures FlatAll(out) == [] <==> out == []
  {
    if out != [] { assert Flat(out[|out| - 1]) != []; }
  }

  lemma PrefixOf(a: seq<Event>, b: seq<Event>)
    ensures (a + b)[..|a|] == a
  {
  }

  lemma PairedPrefix(all: seq<Event>, prefix: seq<Event>, rest: seq<Event>, id: string)
    requires Paired(all) && all == prefix + rest
    ensures AnswerCount(prefix, id) <= CallCount(prefix, id)
  {
    PrefixOf(prefix, rest);
    assert AnswerCount(all[..|prefix|], id) <= CallCount(all[..|prefix|], id);
  }

  /** In every prefix of what is rendered, the answers to an id are no more than its calls. */
  lemma RenderedPaired(out: seq<ChatMessage>, events: seq<Event>, k: nat, id: string)
    requires FlatAll(out) == AllKept(events) && k <= |out|
    ensures AnswerCount(FlatAll(out[..k]), id) <= CallCount(FlatAll(out[..k]), id)
  {
    KeptPaired(events);
    assert out == out[..k] + out[k..];
    FlatCut(out, out[..k], out[k..]);
    PairedPrefix(AllKept(events), FlatAll(out[..k]), FlatAll(out[k..]), id);
  }

  lemma FlatCut(out: seq<ChatMessage>, a: seq<ChatMessage>, b: seq<ChatMessage>)
    requires out == a + b
    ensures FlatAll(out) == FlatAll(a) + FlatAll(b)
  {
    FlatJoin(a, b);
  }
}
