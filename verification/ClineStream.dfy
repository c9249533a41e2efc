/** Reading one Cline response: think blocks out of the content, text held back while it
    may turn out to be a tool call, native tool calls, and how the stream ends. */
module ClineStream {
  import opened Text
  import TS = ThinkSplitter

  // ---- the lines of a response ----

  datatype ToolDelta = ToolDelta(index: int, id: string, name: string, arguments: string)

  /** The delta of the first choice, and its finish reason without the white space
      around it, if anything is left of it. */
  datatype Delta = Delta(reasoningContent: string, reasoning: string, thinking: string, content: string,
    tools: seq<ToolDelta>, finishReason: Option<string>)

  /** What the decoder makes of a payload. A chunk may have no choices. */
  datatype Decoded = Invalid | Failed | Chunk(choice: Option<Delta>)

  datatype Line = Ignored | Done | Data(decoded: Decoded)

  function ReadLine(raw: string, decode: string -> Decoded): Line {
    var line := Trim(raw);
    if line == "" || At(line, 0, ":") || !At(line, 0, "data:") then Ignored
    else
      var payload := Trim(line[5..]);
      if payload == "[DONE]" then Done else if payload == "" then Ignored else Data(decode(payload))
  }

  datatype Outcome = Completed | ProtocolError | UpstreamError | ReadError | Truncated

  // ---- what the reader puts out ----

  /** One event for the client. `inline` tells reasoning found in the content from
      reasoning in a field of its own; clients do not see the difference. */
  datatype Out = TextOut(text: string) | ReasoningOut(text: string, inline: bool)

  /** The characters of a sequence of outputs on one channel. */
  datatype Channel = TextChannel | InlineChannel | FieldChannel

  function On(o: Out, ch: Channel): string {
    match o
    case TextOut(text) => if ch.TextChannel? then text else ""
    case ReasoningOut(text, inline) => if (inline && ch.InlineChannel?) || (!inline && ch.FieldChannel?) then text else ""
  }

  function Heard(log: seq<Out>, ch: Channel): string {
    if log == [] then "" else Heard(log[..|log| - 1], ch) + On(log[|log| - 1], ch)
  }

  // ---- the reference reading ----

  function Chars(marks: seq<TS.Mark>, reasoning: bool): string {
    if marks == [] then ""
    else Chars(marks[..|marks| - 1], reasoning) + if marks[|marks| - 1].reasoning == reasoning then [marks[|marks| - 1].c] else ""
  }

  function Content(ds: seq<Delta>): string {
    if ds == [] then "" else Content(ds[..|ds| - 1]) + ds[|ds| - 1].content
  }

  function FieldReasoning(d: Delta): string {
    if d.reasoningContent != "" then d.reasoningContent else if d.reasoning != "" then d.reasoning else d.thinking
  }

  function FieldReasonings(ds: seq<Delta>): string {
    if ds == [] then "" else FieldReasonings(ds[..|ds| - 1]) + FieldReasoning(ds[|ds| - 1])
  }

  function NativeTools(ds: seq<Delta>): seq<ToolDelta> {
    if ds == [] then [] else NativeTools(ds[..|ds| - 1]) + ds[|ds| - 1].tools
  }

  predicate Finishes(d: Delta) { d.finishReason.Some? }

  /** The text of the answer: the content outside think blocks, read as a whole. */
  function Answer(ds: seq<Delta>): string {
    Chars(TS.Whole(TS.ThinkTags, Content(ds), false), false)
  }

  function InlineReasoning(ds: seq<Delta>): string {
    Chars(TS.Whole(TS.ThinkTags, Content(ds), false), true)
  }

  // ---- how a stream ends ----

  /** Walks the lines up to the one that ends the stream; `finished` says whether a
      finish reason has been read before them. */
  function Ending(lines: seq<Line>, readFails: bool, finished: bool): Outcome {
    if lines == [] then if readFails then ReadError else if finished then Completed else Truncated
    else
      match lines[0]
      case Ignored => Ending(lines[1..], readFails, finished)
      case Done => Completed
      case Data(Invalid) => ProtocolError
      case Data(Failed) => UpstreamError
      case Data(Chunk(None)) => Ending(lines[1..], readFails, finished)
      case Data(Chunk(Some(d))) => Ending(lines[1..], readFails, finished || Finishes(d))
  }

  /** The deltas that are read before the stream ends. */
  function Deltas(lines: seq<Line>): seq<Delta> {
    if lines == [] then []
    else
      match lines[0]
      case Ignored => Deltas(lines[1..])
      case Done => []
      case Data(Chunk(None)) => Deltas(lines[1..])
      case Data(Chunk(Some(d))) => [d] + Deltas(lines[1..])
      case Data(_) => []
  }

  predicate Bad(l: Line) { l.Data? && !l.decoded.Chunk? }

  predicate Ends(l: Line) { Bad(l) || l.Done? }

  predicate FinishLine(l: Line) { l.Data? && l.decoded.Chunk? && l.decoded.choice.Some? && Finishes(l.decoded.choice.value) }

  /** A stream that reaches its end marker before anything goes wrong. */
  ghost predicate MarkedDone(lines: seq<Line>) {
    exists k :: 0 <= k < |lines| && lines[k].Done? && forall i :: 0 <= i < k ==> !Bad(lines[i])
  }

  ghost predicate Among(lines: seq<Line>, p: Line -> bool) {
    exists i :: 0 <= i < |lines| && p(lines[i])
  }

  /** A stream that just stops, but after a finish reason. */
  ghost predicate StoppedFinished(lines: seq<Line>, readFails: bool, finished: bool) {
    && !readFails && !Among(lines, Ends)
    && (finished || Among(lines, FinishLine))
  }

  /** A response is accepted exactly when it says that it is done, or stops without an
      error after some finish reason. */
  lemma {:induction false} AcceptedExactly(lines: seq<Line>, readFails: bool, finished: bool)
    ensures Ending(lines, readFails, finished).Completed? <==> MarkedDone(lines) || StoppedFinished(lines, readFails, finished)
  {
    if lines != [] {
      var l, rest := lines[0], lines[1..];
      var finished' := finished || FinishLine(l);
      AmongLater(lines, Ends);
      if l.Done? {
        assert MarkedDone(lines);
      } else if Bad(l) {
        assert !MarkedDone(lines) && !StoppedFinished(lines, readFails, finished);
      } else {
        AcceptedExactly(rest, readFails, finished');
        DoneLater(lines);
        StoppedLater(lines, readFails, finished);
        assert Ending(lines, readFails, finished) == Ending(rest, readFails, finished');
      }
    }
  }

  lemma DoneLater(lines: seq<Line>)
    requires lines != [] && !lines[0].Done? && !Bad(lines[0])
    ensures MarkedDone(lines) <==> MarkedDone(lines[1..])
  {
    var rest := lines[1..];
    if MarkedDone(lines) {
      var k :| 0 <= k < |lines| && lines[k].Done? && forall i :: 0 <= i < k ==> !Bad(lines[i]);
      assert rest[k - 1].Done?;
    }
    if MarkedDone(rest) {
      var k :| 0 <= k < |rest| && rest[k].Done? && forall i :: 0 <= i < k ==> !Bad(rest[i]);
      assert lines[k + 1].Done?;
      forall i | 0 <= i < k + 1
        ensures !Bad(lines[i])
      {
        assert i > 0 ==> lines[i] == rest[i - 1];
      }
    }
  }

  lemma AmongLater(lines: seq<Line>, p: Line -> bool)
    requires lines != []
    ensures Among(lines, p) <==> p(lines[0]) || Among(lines[1..], p)
  {
    var rest := lines[1..];
    if i :| 0 < i < |lines| && p(lines[i]) {
      assert p(rest[i - 1]);
    }
    if i :| 0 <= i < |rest| && p(rest[i]) {
      assert p(lines[i + 1]);
    }
  }

  lemma StoppedLater(lines: seq<Line>, readFails: bool, finished: bool)
    requires lines != [] && !lines[0].Done? && !Bad(lines[0])
    ensures StoppedFinished(lines, readFails, finished) <==> StoppedFinished(lines[1..], readFails, finished || FinishLine(lines[0]))
  {
    AmongLater(lines, Ends);
    AmongLater(lines, FinishLine);
  }
}
