/** The Anthropic stream protocol, from the receiving side: the frames a stream
    consists of, and the client that accepts or refuses them one by one.
    Nothing here knows how the frames were produced. */
module AnthropicClient {

  datatype Kind =
    | TextBlock
    | ThinkingBlock
    | ToolBlock(id: string, name: string)
    | SearchBlock(searchId: string)
    | SearchResult(resultFor: string, hits: string)

  datatype Delta =
    | TextDelta(text: string)
    | CitationDelta(citation: string)
    | ThinkingDelta(thinking: string)
    | SignatureDelta(signature: string)
    | JsonDelta(json: string)

  datatype Frame =
    | MessageStart
    | BlockStart(index: int, kind: Kind)
    | BlockDelta(index: int, delta: Delta)
    | BlockStop(index: int)
    | MessageDelta(stopReason: string, stopSequence: string, searchCount: nat)
    | MessageStop
    | ErrorFrame

  datatype Phase = Waiting | Streaming | Closing | Ended | Broken | Violated

  /** A content block as the client has assembled it so far. */
  datatype Block = Block(kind: Kind, body: string, sigs: seq<string>, cites: seq<string>, open: bool)

  /** `thinking` and `signatures` are what the client was sent of each over all its
      blocks, in arrival order. */
  datatype Client = Client(phase: Phase, blocks: seq<Block>, thinking: string, signatures: seq<string>)

  const NewClient := Client(Waiting, [], "", [])

  predicate Fits(b: Block, d: Delta) {
    match d
    case TextDelta(_) => b.kind.TextBlock?
    case CitationDelta(_) => b.kind.TextBlock?
    case ThinkingDelta(_) => b.kind.ThinkingBlock?
    case SignatureDelta(_) => b.kind.ThinkingBlock? && b.sigs == []
    case JsonDelta(_) => b.kind.ToolBlock? || b.kind.SearchBlock?
  }

  function Extend(b: Block, d: Delta): Block {
    match d
    case TextDelta(s) => b.(body := b.body + s)
    case CitationDelta(s) => b.(cites := b.cites + [s])
    case ThinkingDelta(s) => b.(body := b.body + s)
    case SignatureDelta(s) => b.(sigs := b.sigs + [s])
    case JsonDelta(s) => b.(body := b.body + s)
  }

  /** No tool call id may be announced twice. */
  predicate FreshKind(blocks: seq<Block>, k: Kind) {
    k.ToolBlock? ==> forall i :: 0 <= i < |blocks| && blocks[i].kind.ToolBlock? ==> blocks[i].kind.id != k.id
  }

  predicate IsOpen(blocks: seq<Block>, i: int) { 0 <= i < |blocks| && blocks[i].open }

  predicate AllClosed(blocks: seq<Block>) { forall i :: 0 <= i < |blocks| ==> !blocks[i].open }

  /** One frame arrives. Indices must be 0, 1, 2, ...; a delta or a stop must name
      a block that is open; the message may only end with every block closed. */
  function Receive(c: Client, f: Frame): Client {
    var refused := c.(phase := Violated);
    match f
    case MessageStart => if c.phase == Waiting then c.(phase := Streaming) else refused
    case BlockStart(i, k) =>
      if c.phase == Streaming && i == |c.blocks| && FreshKind(c.blocks, k)
      then c.(blocks := c.blocks + [Block(k, "", [], [], true)]) else refused
    case BlockDelta(i, d) =>
      if c.phase == Streaming && IsOpen(c.blocks, i) && Fits(c.blocks[i], d)
      then c.(blocks := c.blocks[i := Extend(c.blocks[i], d)],
              thinking := if d.ThinkingDelta? then c.thinking + d.thinking else c.thinking,
              signatures := if d.SignatureDelta? then c.signatures + [d.signature] else c.signatures) else refused
    case BlockStop(i) =>
      if c.phase == Streaming && IsOpen(c.blocks, i)
      then c.(blocks := c.blocks[i := c.blocks[i].(open := false)]) else refused
    case MessageDelta(_, _, _) =>
      if c.phase == Streaming && AllClosed(c.blocks) then c.(phase := Closing) else refused
    case MessageStop => if c.phase == Closing then c.(phase := Ended) else refused
    case ErrorFrame => if c.phase == Streaming then c.(phase := Broken) else refused
  }

  function Play(frames: seq<Frame>): Client {
    if frames == [] then NewClient else Receive(Play(frames[..|frames| - 1]), frames[|frames| - 1])
  }

  lemma PlayExtend(frames: seq<Frame>, f: Frame)
    ensures Play(frames + [f]) == Receive(Play(frames), f)
  {
    assert (frames + [f])[..|frames|] == frames;
  }

  /** A client that has not refused the whole stream refused no part of it. */
  lemma {:induction false} PrefixAccepted(frames: seq<Frame>, n: nat)
    requires n <= |frames| && Play(frames).phase != Violated
    ensures Play(frames[..n]).phase != Violated
  {
    if n == |frames| {
      assert frames[..n] == frames;
    } else {
      assert frames[..|frames| - 1][..n] == frames[..n];
      PrefixAccepted(frames[..|frames| - 1], n);
    }
  }

  /** The text and the citations a reader sees, block by block in index order. */
  function Shown(blocks: seq<Block>): (r: (string, seq<string>)) {
    if blocks == [] then ("", [])
    else
      var before := Shown(blocks[..|blocks| - 1]);
      var last := blocks[|blocks| - 1];
      if last.kind.TextBlock? then (before.0 + last.body, before.1 + last.cites) else before
  }

  lemma ShownAppend(blocks: seq<Block>, b: Block)
    requires b.body == "" && b.cites == []
    ensures Shown(blocks + [b]) == Shown(blocks)
  {
    assert (blocks + [b])[..|blocks|] == blocks;
    assert Shown(blocks).0 + "" == Shown(blocks).0 && Shown(blocks).1 + [] == Shown(blocks).1;
  }

  /** Writing into the last text block extends what is shown at its end; writing
      anywhere else does not change it. */
  lemma {:induction false} ShownUpdate(blocks: seq<Block>, i: nat, b: Block, text: string, cites: seq<string>)
    requires i < |blocks| && b.kind == blocks[i].kind
    requires b.kind.TextBlock? ==> b.body == blocks[i].body + text && b.cites == blocks[i].cites + cites
    requires b.kind.TextBlock? ==> (text == "" && cites == []) || forall j :: i < j < |blocks| ==> !blocks[j].kind.TextBlock?
    ensures Shown(blocks[i := b]) ==
            if b.kind.TextBlock? then (Shown(blocks).0 + text, Shown(blocks).1 + cites) else Shown(blocks)
  {
    var n := |blocks| - 1;
    if i == n {
      assert blocks[i := b][..n] == blocks[..n];
      var before := Shown(blocks[..n]);
      assert before.0 + (blocks[i].body + text) == (before.0 + blocks[i].body) + text;
      assert before.1 + (blocks[i].cites + cites) == (before.1 + blocks[i].cites) + cites;
    } else {
      assert blocks[i := b][..n] == blocks[..n][i := b];
      ShownUpdate(blocks[..n], i, b, text, cites);
      var before := Shown(blocks[..n]);
      assert before.0 + "" == before.0 && before.1 + [] == before.1;
      assert Shown(blocks).0 + "" == Shown(blocks).0 && Shown(blocks).1 + [] == Shown(blocks).1;
    }
  }
}
