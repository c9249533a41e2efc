/** What ties the translator's state to the client's blocks and to the reading of
    its input, one relation per kind of block. */
module StreamLinks {
  import opened Text
  import opened AnthropicClient
  import opened StreamReading
  import opened StreamState

  datatype Sort = TextSort | ThinkingSort | ToolSort | SearchSort

  function SortOf(k: Kind): Sort {
    match k
    case TextBlock => TextSort
    case ThinkingBlock => ThinkingSort
    case ToolBlock(_, _) => ToolSort
    case SearchBlock(_) => SearchSort
    case SearchResult(_, _) => SearchSort
  }

  /** No block of the given sort was added, changed, opened or closed. */
  ghost predicate Untouched(a: seq<Block>, b: seq<Block>, sort: Sort) {
    && |a| <= |b|
    && (forall i :: 0 <= i < |a| && SortOf(a[i].kind) == sort ==> b[i] == a[i])
    && (forall i :: 0 <= i < |b| && SortOf(b[i].kind) == sort ==> i < |a| && SortOf(a[i].kind) == sort)
  }

  ghost predicate Indexed(w: Wire, blocks: seq<Block>, kinds: seq<Kind>) {
    && w.nextIndex == |blocks| == |kinds|
    && (forall i :: 0 <= i < w.nextIndex ==> blocks[i].kind == kinds[i])
    && (forall i :: i in w.open <==> IsOpen(blocks, i))
  }

  /** At most one text block is open: the last one, while more text may join it. */
  ghost predicate TextLinked(textIndex: int, citations: set<string>, blocks: seq<Block>, r: Prose) {
    && -1 <= textIndex < |blocks|
    && (textIndex >= 0 <==> r.open)
    && (textIndex >= 0 ==> blocks[textIndex].open && blocks[textIndex].kind.TextBlock?)
    && (textIndex >= 0 ==> forall j :: textIndex < j < |blocks| ==> !blocks[j].kind.TextBlock?)
    && (forall j :: 0 <= j < |blocks| && blocks[j].open && blocks[j].kind.TextBlock? ==> j == textIndex)
    && Shown(blocks) == (r.text, r.cites)
    && (forall c :: c in citations <==> c in r.cites)
  }

  ghost predicate ToolsLinked(t: Tools, blocks: seq<Block>, tools: map<int, ToolText>) {
    && t.indexes.Keys == tools.Keys
    && (forall i :: i in t.indexes ==>
          && IsOpen(blocks, t.indexes[i])
          && blocks[t.indexes[i]].kind == ToolBlock(tools[i].id, tools[i].name)
          && blocks[t.indexes[i]].body == tools[i].arguments
          && tools[i].id in t.ids)
    && (forall id :: id in t.ids ==> t.ids[id] in tools && tools[t.ids[id]].id == id)
    && (forall i, j :: i in t.indexes && j in t.indexes && i != j ==> t.indexes[i] != t.indexes[j])
    && (forall b :: 0 <= b < |blocks| && blocks[b].kind.ToolBlock? ==> blocks[b].kind.id in t.ids)
  }

  ghost predicate SearchesLinked(searches: map<string, SearchState>, blocks: seq<Block>, found: map<string, Option<SearchItem>>) {
    && searches.Keys == found.Keys
    && (forall s :: s in searches ==>
          && 0 <= searches[s].index < |blocks|
          && blocks[searches[s].index].kind == SearchBlock(s)
          && (searches[s].done <==> found[s].Some?)
          && (blocks[searches[s].index].open <==> !searches[s].done)
          && blocks[searches[s].index].body == if searches[s].done then found[s].value.input else "")
  }

  /** The block at `i` shows exactly this item, and is open until the item is closed. */
  ghost predicate Carries(b: Block, t: Thought) {
    && b.kind.ThinkingBlock?
    && b.body == t.text
    && b.sigs == (if t.signature.Some? then [t.signature.value] else [])
    && (b.open <==> !t.closed)
    && (t.closed ==> t.signature.Some?)
  }

  ghost predicate ThoughtsLinked(m: Mind, blocks: seq<Block>, r: Reasoning) {
    && m.reasoningID == r.current
    && m.indexes.Keys == r.thoughts.Keys
    && "" !in m.indexes
    && (forall k :: k in m.indexes ==>
          && 0 <= m.indexes[k] < |blocks|
          && Carries(blocks[m.indexes[k]], r.thoughts[k])
          && (r.thoughts[k].signature.Some? && !r.thoughts[k].closed ==> m.indexes[k] == m.thinkIndex))
    && (forall k, l :: k in m.indexes && l in m.indexes && k != l ==> m.indexes[k] != m.indexes[l])
  }

  ghost predicate IsNamed(indexes: map<string, int>, i: int) { exists k :: k in indexes && indexes[k] == i }

  /** What the block at `i` shows of reasoning that belongs to no named item. */
  ghost function LooseAt(blocks: seq<Block>, indexes: map<string, int>, i: nat): Option<Stretch>
    requires i < |blocks|
  {
    if blocks[i].kind.ThinkingBlock? && !IsNamed(indexes, i) then Some(Stretch(blocks[i].body, blocks[i].sigs)) else None
  }

  /** The thinking blocks that belong to no named item, in index order. */
  ghost function Loose(blocks: seq<Block>, indexes: map<string, int>): seq<Stretch> {
    if blocks == [] then []
    else
      var n := |blocks| - 1;
      Loose(blocks[..n], indexes) + if LooseAt(blocks, indexes, n).Some? then [LooseAt(blocks, indexes, n).value] else []
  }

  ghost predicate NoneLooseAfter(blocks: seq<Block>, indexes: map<string, int>, i: int) {
    forall j :: 0 <= j && i < j < |blocks| ==> LooseAt(blocks, indexes, j).None?
  }

  /** The blocks of no named item are the stretches, the open one last. */
  ghost predicate LooseLinked(m: Mind, blocks: seq<Block>, r: Reasoning) {
    Loose(blocks, m.indexes) == r.stretches && (r.anonymousOpen ==> NoneLooseAfter(blocks, m.indexes, m.thinkIndex))
  }

  /** Nothing loose changes, and nothing loose is added. */
  lemma {:induction false} LooseSame(a: seq<Block>, x: map<string, int>, b: seq<Block>, y: map<string, int>)
    requires |a| <= |b|
    requires forall i :: 0 <= i < |a| ==> LooseAt(b, y, i) == LooseAt(a, x, i)
    requires NoneLooseAfter(b, y, |a| - 1)
    ensures Loose(a, x) == Loose(b, y)
    decreases |b|
  {
    if b != [] {
      var n := |b| - 1;
      var shorter := if |b| > |a| then a else a[..n];
      assert forall i :: 0 <= i < n ==> LooseAt(b[..n], y, i) == LooseAt(b, y, i);
      assert forall i :: 0 <= i < |shorter| ==> LooseAt(shorter, x, i) == LooseAt(a, x, i);
      LooseSame(shorter, x, b[..n], y);
    }
  }

  /** A block that is loose is added. */
  lemma LooseAdded(a: seq<Block>, x: map<string, int>, block: Block)
    requires block.kind.ThinkingBlock? && !IsNamed(x, |a|)
    ensures Loose(a + [block], x) == Loose(a, x) + [Stretch(block.body, block.sigs)]
  {
    assert (a + [block])[..|a|] == a;
    assert LooseAt(a + [block], x, |a|) == Some(Stretch(block.body, block.sigs));
  }

  /** The last loose block changes. */
  lemma {:induction false} LooseChanged(a: seq<Block>, x: map<string, int>, i: nat, block: Block)
    requires i < |a| && a[i].kind.ThinkingBlock? && block.kind.ThinkingBlock? && !IsNamed(x, i) && NoneLooseAfter(a, x, i)
    ensures Loose(a, x) != [] && Loose(a, x)[|Loose(a, x)| - 1] == Stretch(a[i].body, a[i].sigs)
    ensures Loose(a[i := block], x) == Loose(a, x)[..|Loose(a, x)| - 1] + [Stretch(block.body, block.sigs)]
  {
    var n := |a| - 1;
    if i == n {
      assert a[i := block][..n] == a[..n];
    } else {
      assert LooseAt(a, x, n).None? && LooseAt(a[i := block], x, n).None?;
      assert forall j :: 0 <= j < n ==> LooseAt(a[..n], x, j) == LooseAt(a, x, j);
      LooseChanged(a[..n], x, i, block);
      assert a[i := block][..n] == a[..n][i := block];
    }
  }

  /** A change that does not show leaves the stretches as they are. */
  lemma LooseKept(a: seq<Block>, x: map<string, int>, i: nat, block: Block)
    requires i < |a| && a[i].kind.ThinkingBlock? && block.kind.ThinkingBlock?
    requires IsNamed(x, i) || (block.body == a[i].body && block.sigs == a[i].sigs)
    ensures Loose(a[i := block], x) == Loose(a, x)
    ensures forall j :: NoneLooseAfter(a, x, j) ==> NoneLooseAfter(a[i := block], x, j)
  {
    var b := a[i := block];
    assert forall j :: 0 <= j < |a| ==> LooseAt(b, x, j) == LooseAt(a, x, j);
    LooseSame(a, x, b, x);
  }

  /** A block of a new item is not loose. */
  lemma LooseNamed(a: seq<Block>, x: map<string, int>, k: string, block: Block)
    requires k !in x && forall l :: l in x ==> x[l] < |a|
    ensures Loose(a + [block], x[k := |a|]) == Loose(a, x)
  {
    var y := x[k := |a|];
    assert y[k] == |a|;
    forall i | 0 <= i < |a|
      ensures LooseAt(a + [block], y, i) == LooseAt(a, x, i)
    {
      assert forall l :: l in x ==> l in y && y[l] == x[l];
    }
    assert LooseAt(a + [block], y, |a|).None?;
    LooseSame(a, x, a + [block], y);
  }

  /** The open stretch gets longer. */
  lemma LooseLengthened(m: Mind, a: seq<Block>, r: Reasoning, block: Block, text: string, signatures: seq<string>)
    requires LooseLinked(m, a, r) && r.anonymousOpen && 0 <= m.thinkIndex < |a| && !IsNamed(m.indexes, m.thinkIndex)
    requires a[m.thinkIndex].kind.ThinkingBlock? && block.kind.ThinkingBlock?
    requires block.body == a[m.thinkIndex].body + text && block.sigs == a[m.thinkIndex].sigs + signatures
    ensures Loose(a[m.thinkIndex := block], m.indexes) == Lengthened(r.stretches, text, signatures)
    ensures NoneLooseAfter(a[m.thinkIndex := block], m.indexes, m.thinkIndex)
  {
    LooseChanged(a, m.indexes, m.thinkIndex, block);
    var b := a[m.thinkIndex := block];
    assert forall j :: m.thinkIndex < j < |a| ==> LooseAt(b, m.indexes, j) == LooseAt(a, m.indexes, j);
  }

  ghost predicate ThinkingLinked(m: Mind, blocks: seq<Block>, r: Reasoning) {
    && -1 <= m.thinkIndex < |blocks|
    && (forall i :: i in m.signed <==> 0 <= i < |blocks| && blocks[i].kind.ThinkingBlock? && blocks[i].sigs != [])
    && (m.thinkIndex >= 0 ==> blocks[m.thinkIndex].open && blocks[m.thinkIndex].kind.ThinkingBlock?)
    && (m.thinkIndex >= 0 && m.reasoningID != "" ==> m.reasoningID in m.indexes && m.indexes[m.reasoningID] == m.thinkIndex)
    && (m.thinkIndex >= 0 && m.reasoningID == "" ==> forall k :: k in m.indexes ==> m.indexes[k] != m.thinkIndex)
    && (r.anonymousOpen <==> m.thinkIndex >= 0 && m.reasoningID == "")
    && (r.anonymousSigned <==> r.anonymousOpen && m.thinkIndex in m.signed)
    && LooseLinked(m, blocks, r)
  }

  ghost predicate Linked(s: State, r: Reading) {
    var c := Play(s.wire.sent);
    && c.phase == Streaming
    && c.thinking == r.reasoning.thinking && c.signatures == r.reasoning.signatures
    && Indexed(s.wire, c.blocks, r.kinds)
    && TextLinked(s.textIndex, s.citations, c.blocks, r.prose)
    && ToolsLinked(s.tools, c.blocks, r.tools)
    && SearchesLinked(s.searches, c.blocks, r.searches)
    && ThoughtsLinked(s.mind, c.blocks, r.reasoning)
    && ThinkingLinked(s.mind, c.blocks, r.reasoning)
  }

  // ---- relations survive what happens to blocks of another sort ----

  lemma ToolsUntouched(t: Tools, a: seq<Block>, b: seq<Block>, tools: map<int, ToolText>)
    requires ToolsLinked(t, a, tools) && Untouched(a, b, ToolSort)
    ensures ToolsLinked(t, b, tools)
  {
  }

  lemma SearchesUntouched(searches: map<string, SearchState>, a: seq<Block>, b: seq<Block>, found: map<string, Option<SearchItem>>)
    requires SearchesLinked(searches, a, found) && Untouched(a, b, SearchSort)
    ensures SearchesLinked(searches, b, found)
  {
  }

  lemma ReasoningUntouched(s: Mind, a: seq<Block>, b: seq<Block>, r: Reasoning)
    requires ThoughtsLinked(s, a, r) && ThinkingLinked(s, a, r) && Untouched(a, b, ThinkingSort)
    ensures ThoughtsLinked(s, b, r) && ThinkingLinked(s, b, r)
  {
    LooseUntouched(s.indexes, a, b);
  }

  lemma LooseUntouched(x: map<string, int>, a: seq<Block>, b: seq<Block>)
    requires Untouched(a, b, ThinkingSort)
    ensures forall i :: 0 <= i < |a| ==> LooseAt(b, x, i) == LooseAt(a, x, i)
    ensures NoneLooseAfter(b, x, |a| - 1) && Loose(b, x) == Loose(a, x)
  {
    assert forall i :: 0 <= i < |b| ==> (b[i].kind.ThinkingBlock? <==> SortOf(b[i].kind) == ThinkingSort);
    assert forall i :: 0 <= i < |a| ==> (a[i].kind.ThinkingBlock? <==> SortOf(a[i].kind) == ThinkingSort);
    LooseSame(a, x, b, x);
  }

  lemma {:induction false} ShownUntouched(a: seq<Block>, b: seq<Block>)
    requires Untouched(a, b, TextSort)
    ensures Shown(a) == Shown(b)
    decreases |b|
  {
    if |b| > |a| {
      ShownUntouched(a, b[..|b| - 1]);
    } else if a != [] {
      ShownUntouched(a[..|a| - 1], b[..|b| - 1]);
    }
  }

  lemma TextUntouched(textIndex: int, citations: set<string>, a: seq<Block>, b: seq<Block>, r: Prose)
    requires TextLinked(textIndex, citations, a, r) && Untouched(a, b, TextSort)
    ensures TextLinked(textIndex, citations, b, r)
  {
    ShownUntouched(a, b);
  }
}
