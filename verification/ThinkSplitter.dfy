/** Separates <think> blocks from answer text in a stream that may cut a tag
    anywhere. */
module ThinkSplitter {
  import opened Text
  import Seqs

  /** One call of an emitter. Emitters drop empty pieces, so empty ones may occur. */
  datatype Piece = Piece(reasoning: bool, text: string)

  /** One character of output, labelled with where it goes. */
  datatype Mark = Mark(reasoning: bool, c: char)

  /** The opening tag and the closing tag. Everything below holds for any two
      non-empty tags. */
  datatype Tags = Tags(opening: string, closing: string)

  const ThinkTags := Tags("<think>", "</think>")

  function Tag(tags: Tags, thinking: bool): string { if thinking then tags.closing else tags.opening }

  predicate Proper(tags: Tags) { tags.opening != "" && tags.closing != "" }

  // ---- the whole-text reading ----

  function Marks(reasoning: bool, s: string): (r: seq<Mark>)
    ensures |r| == |s| && forall i :: 0 <= i < |s| ==> r[i] == Mark(reasoning, s[i])
  {
    seq(|s|, i requires 0 <= i < |s| => Mark(reasoning, s[i]))
  }

  /** What a text means when it is read as a whole: a tag that ends the current mode
      switches it, every other character belongs to the current mode. */
  function Whole(tags: Tags, s: string, thinking: bool): seq<Mark>
    requires Proper(tags)
    decreases |s|
  {
    if s == [] then []
    else if At(s, 0, Tag(tags, thinking)) then Whole(tags, s[|Tag(tags, thinking)|..], !thinking)
    else [Mark(thinking, s[0])] + Whole(tags, s[1..], thinking)
  }

  function PieceMarks(pieces: seq<Piece>): seq<Mark> {
    if pieces == [] then []
    else PieceMarks(pieces[..|pieces| - 1]) + Marks(pieces[|pieces| - 1].reasoning, pieces[|pieces| - 1].text)
  }

  /** Puts the tags back between pieces of different modes; `thinking` is the mode
      after the last piece. */
  function Rebuild(tags: Tags, pieces: seq<Piece>, thinking: bool): string {
    if pieces == [] then (if thinking then Tag(tags, false) else "")
    else
      var last := pieces[|pieces| - 1];
      Rebuild(tags, pieces[..|pieces| - 1], last.reasoning) + last.text + if last.reasoning == thinking then "" else Tag(tags, last.reasoning)
  }

  lemma Emitted(tags: Tags, pieces: seq<Piece>, p: Piece)
    ensures PieceMarks(pieces + [p]) == PieceMarks(pieces) + Marks(p.reasoning, p.text)
    ensures Rebuild(tags, pieces + [p], p.reasoning) == Rebuild(tags, pieces, p.reasoning) + p.text
    ensures Rebuild(tags, pieces + [p], !p.reasoning) == Rebuild(tags, pieces, p.reasoning) + p.text + Tag(tags, p.reasoning)
  {
    assert (pieces + [p])[..|pieces|] == pieces;
  }

  lemma NoTagAfter(s: string, tag: string, n: nat)
    requires 0 < n <= |s| && forall i :: 0 <= i < n ==> !At(s, i, tag)
    ensures forall i :: 0 <= i < n - 1 ==> !At(s[1..], i, tag)
  {
    forall i | 0 <= i < n - 1
      ensures !At(s[1..], i, tag)
    {
      assert !At(s, i + 1, tag);
      assert i + |tag| < |s| ==> s[1..][i..i + |tag|] == s[i + 1..i + 1 + |tag|];
    }
  }

  lemma MarksFirst(reasoning: bool, s: string, n: nat)
    requires 0 < n <= |s|
    ensures Marks(reasoning, s[..n]) == [Mark(reasoning, s[0])] + Marks(reasoning, s[1..][..n - 1])
  {
  }

  /** Text in which no tag of the current mode starts passes through unchanged. */
  lemma {:induction false} WholePlain(tags: Tags, s: string, thinking: bool, n: nat)
    requires Proper(tags) && n <= |s| && forall i :: 0 <= i < n ==> !At(s, i, Tag(tags, thinking))
    ensures Whole(tags, s, thinking) == Marks(thinking, s[..n]) + Whole(tags, s[n..], thinking)
  {
    if n == 0 {
      assert s[0..] == s && Marks(thinking, s[..0]) + Whole(tags, s, thinking) == Whole(tags, s, thinking);
    } else {
      var rest := s[1..];
      NoTagAfter(s, Tag(tags, thinking), n);
      WholePlain(tags, rest, thinking, n - 1);
      assert rest[n - 1..] == s[n..];
      MarksFirst(thinking, s, n);
      assert Whole(tags, s, thinking) == [Mark(thinking, s[0])] + Whole(tags, rest, thinking);
    }
  }

  lemma WholeTag(tags: Tags, s: string, thinking: bool, n: nat)
    requires Proper(tags) && n <= |s| && At(s, n, Tag(tags, thinking)) && forall i :: 0 <= i < n ==> !At(s, i, Tag(tags, thinking))
    ensures Whole(tags, s, thinking) == Marks(thinking, s[..n]) + Whole(tags, s[n + |Tag(tags, thinking)|..], !thinking)
  {
    var tag := Tag(tags, thinking);
    WholePlain(tags, s, thinking, n);
    assert s[n..][0..|tag|] == s[n..n + |tag|];
    assert s[n..][|tag|..] == s[n + |tag|..];
  }

  /** Are the last `n` characters of `s` the beginning of the tag? */
  predicate Held(s: string, n: nat, tag: string) {
    n <= |s| && n < |tag| && s[|s| - n..] == tag[..n]
  }

  /** The longest suffix that may still become the tag. */
  ghost predicate LongestHeld(s: string, n: nat, tag: string) {
    Held(s, n, tag) && forall m :: n < m <= |s| ==> !Held(s, m, tag)
  }

  /** A tag cannot start where neither a whole tag nor a held suffix does. */
  lemma NoLateTag(s: string, n: nat, tag: string, more: string, i: nat)
    requires LongestHeld(s, n, tag) && i < |s| - n && !At(s, i, tag)
    ensures !At(s + more, i, tag)
  {
    assert i >= 0 && i + |tag| > |s| ==> !Held(s, |s| - i, tag);
    if 0 <= i && i + |tag| <= |s + more| {
      if i + |tag| <= |s| {
        assert (s + more)[i..i + |tag|] == s[i..i + |tag|];
      } else {
        assert (s + more)[i..i + |tag|][..|s| - i] == s[i..];
      }
    }
  }

  /** What precedes the longest held suffix is settled, whatever text comes next. */
  lemma Settled(tags: Tags, s: string, n: nat, thinking: bool, more: string)
    requires Proper(tags) && LongestHeld(s, n, Tag(tags, thinking)) && forall i :: 0 <= i ==> !At(s, i, Tag(tags, thinking))
    ensures Whole(tags, s + more, thinking) == Marks(thinking, s[..|s| - n]) + Whole(tags, s[|s| - n..] + more, thinking)
  {
    var all, cut := s + more, |s| - n;
    forall i | 0 <= i < cut
      ensures !At(all, i, Tag(tags, thinking))
    {
      NoLateTag(s, n, Tag(tags, thinking), more, i);
    }
    WholePlain(tags, all, thinking, cut);
    assert all[..cut] == s[..cut] && all[cut..] == s[cut..] + more;
  }

  // ---- the incremental splitter ----

  /** What was emitted, the tags put back, and what is held make up the input; and
      whatever comes next, what was emitted stands. */
  ghost predicate Faithful(tags: Tags, out: seq<Piece>, pending: string, thinking: bool, fed: string)
    requires Proper(tags)
  {
    && Rebuild(tags, out, thinking) + pending == fed
    && forall more: string :: PieceMarks(out) + Whole(tags, pending + more, thinking) == Whole(tags, fed + more, false)
  }

  lemma FedMore(tags: Tags, out: seq<Piece>, pending: string, thinking: bool, fed: string, content: string)
    requires Proper(tags) && Faithful(tags, out, pending, thinking, fed)
    ensures Faithful(tags, out, pending + content, thinking, fed + content)
  {
    assert Rebuild(tags, out, thinking) + (pending + content) == (Rebuild(tags, out, thinking) + pending) + content;
    forall more: string
      ensures PieceMarks(out) + Whole(tags, pending + content + more, thinking) == Whole(tags, fed + content + more, false)
    {
      assert pending + (content + more) == pending + content + more && fed + (content + more) == fed + content + more;
    }
  }

  lemma SwitchedMarks(tags: Tags, out: seq<Piece>, pending: string, thinking: bool, fed: string, idx: nat, more: string)
    requires Proper(tags) && PieceMarks(out) + Whole(tags, pending + more, thinking) == Whole(tags, fed + more, false)
    requires At(pending, idx, Tag(tags, thinking)) && forall i :: 0 <= i < idx ==> !At(pending, i, Tag(tags, thinking))
    ensures PieceMarks(out) + Marks(thinking, pending[..idx]) + Whole(tags, pending[idx + |Tag(tags, thinking)|..] + more, !thinking)
            == Whole(tags, fed + more, false)
  {
    var tag := Tag(tags, thinking);
    FirstTagStays(pending, idx, tag, more);
    WholeTag(tags, pending + more, thinking, idx);
    assert (pending + more)[..idx] == pending[..idx] && (pending + more)[idx + |tag|..] == pending[idx + |tag|..] + more;
    Seqs.Assoc(PieceMarks(out), Marks(thinking, pending[..idx]), Whole(tags, pending[idx + |tag|..] + more, !thinking));
  }

  lemma SwitchedText(tags: Tags, out: seq<Piece>, pending: string, thinking: bool, fed: string, idx: nat)
    requires Rebuild(tags, out, thinking) + pending == fed && At(pending, idx, Tag(tags, thinking))
    ensures Rebuild(tags, out + [Piece(thinking, pending[..idx])], !thinking) + pending[idx + |Tag(tags, thinking)|..] == fed
  {
    var tag := Tag(tags, thinking);
    var rest := pending[idx + |tag|..];
    Emitted(tags, out, Piece(thinking, pending[..idx]));
    assert pending == pending[..idx] + (tag + rest);
    Seqs.Assoc(Rebuild(tags, out, thinking) + pending[..idx], tag, rest);
    Seqs.Assoc(Rebuild(tags, out, thinking), pending[..idx], tag + rest);
  }

  lemma SwitchedAt(tags: Tags, out: seq<Piece>, pending: string, thinking: bool, fed: string, idx: nat)
    requires Proper(tags) && Faithful(tags, out, pending, thinking, fed)
    requires At(pending, idx, Tag(tags, thinking)) && forall i :: 0 <= i < idx ==> !At(pending, i, Tag(tags, thinking))
    ensures Faithful(tags, out + [Piece(thinking, pending[..idx])], pending[idx + |Tag(tags, thinking)|..], !thinking, fed)
  {
    SwitchedText(tags, out, pending, thinking, fed, idx);
    Emitted(tags, out, Piece(thinking, pending[..idx]));
    forall more: string {
      SwitchedMarks(tags, out, pending, thinking, fed, idx, more);
    }
  }

  lemma FirstTagStays(s: string, n: nat, tag: string, more: string)
    requires At(s, n, tag) && forall i :: 0 <= i < n ==> !At(s, i, tag)
    ensures At(s + more, n, tag) && forall i :: 0 <= i < n ==> !At(s + more, i, tag)
  {
    forall i | 0 <= i <= n
      ensures At(s + more, i, tag) <==> At(s, i, tag)
    {
      assert (s + more)[i..i + |tag|] == s[i..i + |tag|];
    }
  }

  lemma KeptMarks(tags: Tags, out: seq<Piece>, pending: string, thinking: bool, fed: string, keep: nat, more: string)
    requires Proper(tags) && PieceMarks(out) + Whole(tags, pending + more, thinking) == Whole(tags, fed + more, false)
    requires LongestHeld(pending, keep, Tag(tags, thinking)) && forall i :: 0 <= i ==> !At(pending, i, Tag(tags, thinking))
    ensures PieceMarks(out) + Marks(thinking, pending[..|pending| - keep]) + Whole(tags, pending[|pending| - keep..] + more, thinking)
            == Whole(tags, fed + more, false)
  {
    var cut := |pending| - keep;
    Settled(tags, pending, keep, thinking, more);
    Seqs.Assoc(PieceMarks(out), Marks(thinking, pending[..cut]), Whole(tags, pending[cut..] + more, thinking));
  }

  lemma KeptText(tags: Tags, out: seq<Piece>, pending: string, thinking: bool, fed: string, cut: nat)
    requires Rebuild(tags, out, thinking) + pending == fed && cut <= |pending|
    ensures Rebuild(tags, out + [Piece(thinking, pending[..cut])], thinking) + pending[cut..] == fed
  {
    Emitted(tags, out, Piece(thinking, pending[..cut]));
    assert pending == pending[..cut] + pending[cut..];
    Seqs.Assoc(Rebuild(tags, out, thinking), pending[..cut], pending[cut..]);
  }

  lemma KeptSuffix(tags: Tags, out: seq<Piece>, pending: string, thinking: bool, fed: string, keep: nat)
    requires Proper(tags) && Faithful(tags, out, pending, thinking, fed) && LongestHeld(pending, keep, Tag(tags, thinking))
    requires forall i :: 0 <= i ==> !At(pending, i, Tag(tags, thinking))
    ensures Faithful(tags, out + [Piece(thinking, pending[..|pending| - keep])], pending[|pending| - keep..], thinking, fed)
    ensures pending[|pending| - keep..] < Tag(tags, thinking)
  {
    KeptText(tags, out, pending, thinking, fed, |pending| - keep);
    Emitted(tags, out, Piece(thinking, pending[..|pending| - keep]));
    forall more: string {
      KeptMarks(tags, out, pending, thinking, fed, keep, more);
    }
  }

  /** What a finished splitter has emitted. */
  ghost predicate Complete(tags: Tags, out: seq<Piece>, thinking: bool, fed: string)
    requires Proper(tags)
  {
    PieceMarks(out) == Whole(tags, fed, false) && Rebuild(tags, out, thinking) == fed
  }

  /** At the end of the stream a tag that never completed is ordinary text. */
  lemma FlushedAll(tags: Tags, out: seq<Piece>, pending: string, thinking: bool, fed: string)
    requires Proper(tags) && Faithful(tags, out, pending, thinking, fed) && forall i :: 0 <= i ==> !At(pending, i, Tag(tags, thinking))
    ensures Complete(tags, out + [Piece(thinking, pending)], thinking, fed)
  {
    Emitted(tags, out, Piece(thinking, pending));
    WholePlain(tags, pending, thinking, |pending|);
    assert pending[..|pending|] == pending && pending[|pending|..] == "";
    assert pending + "" == pending && fed + "" == fed;
    assert PieceMarks(out) + (Marks(thinking, pending) + []) == PieceMarks(out) + Marks(thinking, pending);
  }

  lemma NothingHeld(tags: Tags, out: seq<Piece>, thinking: bool, fed: string)
    requires Proper(tags) && Faithful(tags, out, "", thinking, fed)
    ensures Complete(tags, out, thinking, fed)
  {
    assert "" + "" == "" && fed + "" == fed && PieceMarks(out) + [] == PieceMarks(out);
    assert Rebuild(tags, out, thinking) + "" == Rebuild(tags, out, thinking);
  }

  method LongestSuffix(s: string, tag: string) returns (keep: nat)
    requires tag != ""
    ensures LongestHeld(s, keep, tag)
  {
    var n := if |s| < |tag| - 1 then |s| else |tag| - 1;
    while n > 0
      invariant 0 <= n <= |s| && n < |tag|
      invariant forall m :: n < m <= |s| ==> !Held(s, m, tag)
    {
      if s[|s| - n..] == tag[..n] {
        return n;
      }
      n := n - 1;
    }
    assert s[|s|..] == "" == tag[..0];
    keep := 0;
  }

  method Settle(tags: Tags, pending: string, thinking: bool, ghost out: seq<Piece>, ghost fed: string)
    returns (piece: Piece, kept: string)
    requires Proper(tags) && Faithful(tags, out, pending, thinking, fed)
    requires forall i :: 0 <= i ==> !At(pending, i, Tag(tags, thinking))
    ensures Faithful(tags, out + [piece], kept, thinking, fed)
    ensures kept < Tag(tags, thinking)
  {
    var keep := LongestSuffix(pending, Tag(tags, thinking));
    piece, kept := Piece(thinking, pending[..|pending| - keep]), pending[|pending| - keep..];
    KeptSuffix(tags, out, pending, thinking, fed, keep);
  }

  class Splitter {
    const tags: Tags
    var thinking: bool
    var pending: string

    // Everything fed so far and everything emitted for it.
    ghost var fed: string
    ghost var out: seq<Piece>

    /** Between feeds only a proper prefix of the current tag is held. */
    ghost predicate Valid()
      reads this
    {
      Proper(tags) && Faithful(tags, out, pending, thinking, fed) && pending < Tag(tags, thinking)
    }

    constructor (tags: Tags)
      requires Proper(tags)
      ensures Valid() && this.tags == tags && fed == "" && out == [] && !thinking && pending == ""
    {
      this.tags := tags;
      thinking, pending, fed, out := false, "", "", [];
      new;
      assert forall more: string :: [] + Whole(tags, "" + more, false) == Whole(tags, "" + more, false);
    }

    method Feed(content: string, final: bool) returns (emitted: seq<Piece>)
      requires Valid()
      modifies this
      ensures fed == old(fed) + content && out == old(out) + emitted
      ensures !final ==> Valid()
      ensures final ==> pending == "" && Complete(tags, out, thinking, fed)
    {
      FedMore(tags, out, pending, thinking, fed, content);
      pending := pending + content;
      fed := fed + content;
      emitted := [];
      while |pending| > 0
        invariant fed == old(fed) + content && out == old(out) + emitted
        invariant Faithful(tags, out, pending, thinking, fed)
        decreases |pending|
      {
        var idx := Index(pending, Tag(tags, thinking));
        if idx < 0 {
          var rest := FeedRest(final);
          emitted := emitted + [rest];
          return;
        }
        var piece := Switch(idx);
        emitted := emitted + [piece];
      }
      NothingHeld(tags, out, thinking, fed);
    }

    /** What is pending holds no tag of the current mode. */
    method FeedRest(final: bool) returns (piece: Piece)
      requires Proper(tags) && Faithful(tags, out, pending, thinking, fed)
      requires forall i :: 0 <= i ==> !At(pending, i, Tag(tags, thinking))
      modifies `pending, `out
      ensures out == old(out) + [piece]
      ensures !final ==> Valid()
      ensures final ==> pending == "" && Complete(tags, out, thinking, fed)
    {
      if final { piece := Flush(); } else { piece := EmitSettled(); }
    }

    /** Emits what precedes the tag at `idx` and changes mode. */
    method Switch(idx: nat) returns (piece: Piece)
      requires Proper(tags) && Faithful(tags, out, pending, thinking, fed)
      requires At(pending, idx, Tag(tags, thinking)) && forall i :: 0 <= i < idx ==> !At(pending, i, Tag(tags, thinking))
      modifies `pending, `out, `thinking
      ensures out == old(out) + [piece] && |pending| < old(|pending|)
      ensures Faithful(tags, out, pending, thinking, fed)
    {
      SwitchedAt(tags, out, pending, thinking, fed, idx);
      piece := Piece(thinking, pending[..idx]);
      out := out + [piece];
      pending := pending[idx + |Tag(tags, thinking)|..];
      thinking := !thinking;
    }

    /** Emits everything that cannot be the beginning of a tag. */
    method EmitSettled() returns (piece: Piece)
      requires Proper(tags) && Faithful(tags, out, pending, thinking, fed)
      requires forall i :: 0 <= i ==> !At(pending, i, Tag(tags, thinking))
      modifies `pending, `out
      ensures out == old(out) + [piece] && Valid()
    {
      var kept;
      piece, kept := Settle(tags, pending, thinking, out, fed);
      out := out + [piece];
      pending := kept;
    }

    /** At the end of the stream nothing is held back any longer. */
    method Flush() returns (piece: Piece)
      requires Proper(tags) && Faithful(tags, out, pending, thinking, fed)
      requires forall i :: 0 <= i ==> !At(pending, i, Tag(tags, thinking))
      modifies `pending, `out
      ensures out == old(out) + [piece] && pending == "" && Complete(tags, out, thinking, fed)
    {
      FlushedAll(tags, out, pending, thinking, fed);
      piece := Piece(thinking, pending);
      out := out + [piece];
      pending := "";
    }
  }

  function Concat(chunks: seq<string>): string {
    if chunks == [] then "" else Concat(chunks[..|chunks| - 1]) + chunks[|chunks| - 1]
  }

  /** However a text is cut into chunks, feeding them and then flushing emits what
      reading the whole text emits, and loses nothing but the tags. */
  method SplitAll(tags: Tags, chunks: seq<string>) returns (pieces: seq<Piece>, thinking: bool)
    requires Proper(tags)
    ensures PieceMarks(pieces) == Whole(tags, Concat(chunks), false)
    ensures Rebuild(tags, pieces, thinking) == Concat(chunks)
  {
    var s := new Splitter(tags);
    pieces := [];
    var k := 0;
    while k < |chunks|
      invariant 0 <= k <= |chunks|
      invariant s.Valid() && s.fed == Concat(chunks[..k]) && s.out == pieces
    {
      assert chunks[..k + 1][..k] == chunks[..k];
      var emitted := s.Feed(chunks[k], false);
      pieces := pieces + emitted;
      k := k + 1;
    }
    assert chunks[..k] == chunks;
    var last := s.Feed("", true);
    assert Concat(chunks) + "" == Concat(chunks);
    pieces, thinking := pieces + last, s.thinking;
  }
}
