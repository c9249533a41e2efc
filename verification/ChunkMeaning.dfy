/** What a stream of chunks means to its reader, in terms of the frames it was made from. */
module ChunkMeaning {
  import opened Text
  import opened OpenAIChunk
  import opened ChunkDecoding
  import opened FastChunk

  // ---- what a reader makes of chunks ----

  /** The answer, the reasoning, and the calls as they are opened; what each call's
      arguments are; and the last finish reason. */
  datatype Call = Call(index: int, id: string, name: string)

  datatype Message = Message(content: string, reasoning: string, calls: seq<Call>, arguments: map<int, string>, finish: Option<string>)

  const NoMessage := Message("", "", [], map[], None)

  function ArgumentsAt(m: Message, i: int): string { if i in m.arguments then m.arguments[i] else "" }

  function Take(m: Message, c: Chunk): Message {
    var q := if c.finish.Some? then m.(finish := c.finish) else m;
    match c.delta
    case Content(text) => q.(content := q.content + text)
    case Reasoning(text) => q.(reasoning := q.reasoning + text)
    case ToolOpen(index, id, name) => q.(calls := q.calls + [Call(index, id, name)])
    case ToolArguments(index, text) => q.(arguments := q.arguments[index := ArgumentsAt(q, index) + text])
    case _ => q
  }

  function TakeIf(m: Message, c: Option<Chunk>): Message { if c.Some? then Take(m, c.value) else m }

  function TakeAll(chunks: seq<Option<Chunk>>): Message {
    if chunks == [] then NoMessage
    else
      TakeIf(TakeAll(chunks[..|chunks| - 1]), chunks[|chunks| - 1])
  }

  // ---- what the frames say ----

  function TextOf(e: Event): string {
    match e
    case TextStart(_, text) => text
    case TextDelta(_, text) => text
    case _ => ""
  }

  function ThinkingOf(e: Event): string { if e.ThinkingDelta? then e.thinking else "" }

  function CallOf(e: Event): seq<Call> { if e.ToolStart? && e.index >= 0 then [Call(e.index, e.id, e.name)] else [] }

  function ArgumentsOf(e: Event, i: int): string { if e.ArgumentsDelta? && e.index == i then e.json else "" }

  function Texts(es: seq<Event>): string { if es == [] then "" else Texts(es[..|es| - 1]) + TextOf(es[|es| - 1]) }

  function Thoughts(es: seq<Event>): string { if es == [] then "" else Thoughts(es[..|es| - 1]) + ThinkingOf(es[|es| - 1]) }

  function Calls(es: seq<Event>): seq<Call> { if es == [] then [] else Calls(es[..|es| - 1]) + CallOf(es[|es| - 1]) }

  function Arguments(es: seq<Event>, i: int): string {
    if es == [] then "" else Arguments(es[..|es| - 1], i) + ArgumentsOf(es[|es| - 1], i)
  }

  /** The stop reason that was given last. */
  function Stop(es: seq<Event>): Option<string> {
    if es == [] then None
    else if es[|es| - 1].MessageDelta? then Some(es[|es| - 1].stopReason) else Stop(es[..|es| - 1])
  }

  /** OpenAI's word for a stop reason: those that mean the same in both protocols; any other
      stays as it is. */
  predicate Renamed(stopReason: string, finish: string, n: StopNames) {
    var s := Trim(stopReason);
    if s == "" || s == n.stop || s == n.endTurn then finish == n.stop
    else
      && finish != n.stop
      && (s == n.toolUse ==> finish == n.toolCalls) && (s == n.maxTokens ==> finish == n.length)
      && (s == n.refusal ==> finish == n.contentFilter)
      && (s != n.toolUse && s != n.maxTokens && s != n.refusal ==> finish == s)
  }

  /** The last finish reason is the last stop reason. */
  ghost predicate FinishMeans(finish: Option<string>, stop: Option<string>, renamed: (string, string) -> bool) {
    if stop.Some? then finish.Some? && renamed(stop.value, finish.value) else finish.None?
  }

  ghost predicate ArgumentsMean(m: Message, es: seq<Event>) {
    (forall i :: i >= 0 ==> ArgumentsAt(m, i) == Arguments(es, i)) && (forall i :: i in m.arguments ==> i >= 0)
  }

  /** A reader of chunks knows what the frames say. */
  ghost predicate Means(m: Message, es: seq<Event>, renamed: (string, string) -> bool) {
    && m.content == Texts(es) && m.reasoning == Thoughts(es) && m.calls == Calls(es)
    && ArgumentsMean(m, es) && FinishMeans(m.finish, Stop(es), renamed)
  }

  // ---- one frame ----

  function DeltaOf(c: Option<Chunk>): Delta { if c.Some? then c.value.delta else Nothing }

  function FinishOf(c: Option<Chunk>): Option<string> { if c.Some? then c.value.finish else None }

  /** What a chunk adds is what its frame says. */
  ghost predicate DeltaAdds(d: Delta, e: Event) {
    && TextOf(e) == (if d.Content? then d.text else "")
    && ThinkingOf(e) == (if d.Reasoning? then d.text else "")
    && CallOf(e) == (if d.ToolOpen? then [Call(d.index, d.id, d.name)] else [])
    && (forall i :: i >= 0 ==> ArgumentsOf(e, i) == if d.ToolArguments? && d.index == i then d.text else "")
    && (d.ToolArguments? ==> d.index >= 0)
  }

  function StopOf(e: Event): Option<string> { if e.MessageDelta? then Some(e.stopReason) else None }

  ghost predicate Adds(c: Option<Chunk>, e: Event, renamed: (string, string) -> bool) {
    DeltaAdds(DeltaOf(c), e) && FinishMeans(FinishOf(c), StopOf(e), renamed)
  }

  /** No two stop reasons get the same name. */
  predicate NamesApart(n: StopNames) {
    && n.toolUse != n.maxTokens && n.toolUse != n.refusal && n.maxTokens != n.refusal
    && n.stop != n.toolCalls && n.stop != n.length && n.stop != n.contentFilter
  }

  lemma OurNamesApart()
    ensures NamesApart(Names)
  {
  }

  lemma NamesRenamed(stopReason: string, n: StopNames)
    requires NamesApart(n)
    ensures Renamed(stopReason, Normalised(stopReason, n), n)
  {
  }

  lemma SlowDelta(e: Event, id: string, created: int)
    requires Regular(e)
    ensures DeltaAdds(DeltaOf(Slow(e, id, created)), e)
  {
  }

  const InOpenAIWords: (string, string) -> bool := (stopReason, finish) => Renamed(stopReason, finish, Names)

  lemma OursRenamed(stopReason: string)
    ensures InOpenAIWords(stopReason, Normalised(stopReason, Names))
  {
    OurNamesApart();
    NamesRenamed(stopReason, Names);
  }

  lemma SlowFinish(e: Event, id: string, created: int)
    ensures FinishOf(Slow(e, id, created)) == if e.MessageDelta? then Some(Normalised(e.stopReason, Names)) else None
  {
  }

  /** The text appended for a regular frame is the JSON of a chunk that adds what the frame
      says, under the message's id. */
  lemma FrameAdds(e: Event, id: string, created: int, chunk: Option<Chunk>)
    requires Regular(e) && Says(Printed(Both(e, id, created)), chunk)
    ensures Adds(chunk, e, InOpenAIWords)
    ensures chunk.Some? ==> chunk.value.id == id && chunk.value.created == created
    ensures chunk.Some? && e.MessageStart? ==> chunk.value.model == e.model && chunk.value.delta == Role
  {
    TextAgreesExactly(e, id, created);
    SlowDelta(e, id, created);
    SlowFinish(e, id, created);
    if e.MessageDelta? { OursRenamed(e.stopReason); }
    var text, slow := Printed(Both(e, id, created)), Slow(e, id, created);
    OneSaid(text, chunk, slow);
  }

  lemma OneSaid(text: Option<string>, chunk: Option<Chunk>, chunk': Option<Chunk>)
    requires Says(text, chunk) && Says(text, chunk')
    ensures chunk == chunk'
  {
    if chunk.Some? { OneChunk(text.value, chunk.value, chunk'.value); }
  }

  // ---- the stream ----

  lemma TextsMore(es: seq<Event>, e: Event)
    ensures Texts(es + [e]) == Texts(es) + TextOf(e) && Thoughts(es + [e]) == Thoughts(es) + ThinkingOf(e)
    ensures Calls(es + [e]) == Calls(es) + CallOf(e)
    ensures Stop(es + [e]) == if StopOf(e).Some? then StopOf(e) else Stop(es)
  {
    assert (es + [e])[..|es|] == es;
  }

  lemma NothingAdded(s: string, calls: seq<Call>)
    ensures s + "" == s && calls + [] == calls
  {
  }

  lemma TakenSpoken(m: Message, c: Option<Chunk>, e: Event)
    requires DeltaAdds(DeltaOf(c), e)
    ensures var q := TakeIf(m, c); q.content == m.content + TextOf(e) && q.reasoning == m.reasoning + ThinkingOf(e) && q.calls == m.calls + CallOf(e)
  {
    NothingAdded(m.content, m.calls);
    NothingAdded(m.reasoning, m.calls);
  }

  lemma TakenArguments(m: Message, c: Option<Chunk>, e: Event, i: int)
    requires DeltaAdds(DeltaOf(c), e) && i >= 0
    ensures ArgumentsAt(TakeIf(m, c), i) == ArgumentsAt(m, i) + ArgumentsOf(e, i)
  {
    NothingAdded(ArgumentsAt(m, i), []);
  }

  lemma TakenFinish(m: Message, c: Option<Chunk>)
    ensures TakeIf(m, c).finish == if FinishOf(c).Some? then FinishOf(c) else m.finish
  {
  }

  lemma TakenMeans(m: Message, es: seq<Event>, c: Option<Chunk>, e: Event, renamed: (string, string) -> bool)
    requires Means(m, es, renamed) && Adds(c, e, renamed)
    ensures Means(TakeIf(m, c), es + [e], renamed)
  {
    TextsMore(es, e);
    TakenSpoken(m, c, e);
    TakenFinish(m, c);
    ArgumentsTaken(m, es, c, e);
  }

  lemma TakenIndexes(m: Message, c: Option<Chunk>, i: int)
    requires i in TakeIf(m, c).arguments
    ensures i in m.arguments || (DeltaOf(c).ToolArguments? && DeltaOf(c).index == i)
  {
  }

  lemma ArgumentsMore(es: seq<Event>, e: Event, i: int)
    ensures Arguments(es + [e], i) == Arguments(es, i) + ArgumentsOf(e, i)
  {
    assert (es + [e])[..|es|] == es;
  }

  lemma ArgumentsTaken(m: Message, es: seq<Event>, c: Option<Chunk>, e: Event)
    requires ArgumentsMean(m, es) && DeltaAdds(DeltaOf(c), e)
    ensures ArgumentsMean(TakeIf(m, c), es + [e])
  {
    var q := TakeIf(m, c);
    forall i | i >= 0
      ensures ArgumentsAt(q, i) == Arguments(es + [e], i)
    {
      ArgumentsMore(es, e, i);
      TakenArguments(m, c, e, i);
    }
    forall i | i in q.arguments
      ensures i >= 0
    {
      TakenIndexes(m, c, i);
    }
  }

  ghost predicate AllSaid(es: seq<Event>, id: string, created: int, chunks: seq<Option<Chunk>>) {
    && |chunks| == |es|
    && forall i :: 0 <= i < |es| ==> Regular(es[i]) && Says(Printed(Both(es[i], id, created)), chunks[i])
  }

  /** For every sequence of regular frames, and for the chunks that the texts appended for
      them are the JSON of: the reader's answer is the text of the frames, its reasoning
      their thinking, its calls and their arguments those of the frames, and its finish
      reason that of the frames in OpenAI's words. */
  lemma StreamMeans(es: seq<Event>, id: string, created: int, chunks: seq<Option<Chunk>>)
    requires AllSaid(es, id, created, chunks)
    ensures Means(TakeAll(chunks), es, InOpenAIWords)
  {
    forall i | 0 <= i < |es|
      ensures Adds(chunks[i], es[i], InOpenAIWords)
    {
      FrameAdds(es[i], id, created, chunks[i]);
    }
    AllMean(es, chunks, InOpenAIWords);
  }

  lemma {:induction false} AllMean(es: seq<Event>, chunks: seq<Option<Chunk>>, renamed: (string, string) -> bool)
    requires |chunks| == |es| && forall i :: 0 <= i < |es| ==> Adds(chunks[i], es[i], renamed)
    ensures Means(TakeAll(chunks), es, renamed)
  {
    if es != [] {
      var k := |es| - 1;
      AllMean(es[..k], chunks[..k], renamed);
      TakenMeans(TakeAll(chunks[..k]), es[..k], chunks[k], es[k], renamed);
      assert es == es[..k] + [es[k]];
    }
  }
}
