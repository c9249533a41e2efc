/** The literals of a chunk that the fast path makes itself: message ids and stop reasons. */
module ChunkLiterals {
  import opened Text
  import opened JsonText
  import opened JsonTokens
  import opened OpenAIChunk

  // ---- literals ----

  /** Must a character of the message id go through the encoder? */
  predicate Special(c: char) { c < ' ' || c == '\\' || c == '"' || c >= '\U{80}' }

  predicate Raw(s: string) { forall i :: 0 <= i < |s| ==> !Special(s[i]) }

  function IdLiteral(id: string): string { if Raw(id) then "\"" + (id + "\"") else Quote(id) }

  lemma {:induction false} RawReads(s: string)
    requires Raw(s)
    ensures Unescape(s) == Some(s)
  {
    if s != "" {
      RawReads(s[1..]);
      assert s == [s[0]] + s[1..];
    }
  }

  lemma InsideReads(s: string, v: string)
    requires Unescape(s) == Some(v)
    ensures Unquote("\"" + (s + "\"")) == Some(v)
  {
    var q := "\"" + (s + "\"");
    assert q[1..|q| - 1] == s;
  }

  lemma IdReads(id: string)
    ensures Unquote(IdLiteral(id)) == Some(id)
  {
    if Raw(id) {
      RawReads(id);
      InsideReads(id, id);
    } else {
      QuoteReads(id);
    }
  }

  method AppendString(dst: string, value: string) returns (out: string)
    ensures out == dst + IdLiteral(value)
  {
    var i := 0;
    while i < |value|
      invariant 0 <= i <= |value| && forall k :: 0 <= k < i ==> !Special(value[k])
    {
      if Special(value[i]) {
        return dst + Quote(value);
      }
      i := i + 1;
    }
    out := dst + "\"" + value + "\"";
  }

  /** Does the encoder write the character as it is? */
  predicate Untouched(c: char) { FormOf(c) == Plain }

  lemma {:induction false} PlainQuote(s: string)
    requires forall i :: 0 <= i < |s| ==> Untouched(s[i])
    ensures Quote(s) == "\"" + (s + "\"") && Escape(s) == s
  {
    if s != "" {
      PlainQuote(s[1..]);
      assert s == [s[0]] + s[1..];
    }
  }

  // ---- stop reasons ----

  function Literal(s: string): string { "\"" + (s + "\"") }

  /** A stop reason in OpenAI's words, from literal to literal. */
  function NormalisedLiteral(q: string, n: StopNames): string {
    if q == "" || q == Literal("") || q == Literal(n.stop) || q == Literal(n.endTurn) then Literal(n.stop)
    else if q == Literal(n.toolUse) then Literal(n.toolCalls)
    else if q == Literal(n.maxTokens) then Literal(n.length)
    else if q == Literal(n.refusal) then Literal(n.contentFilter)
    else q
  }

  predicate Clean(s: string) { Trim(s) == s }

  lemma LettersPrint(c: char)
    requires Letter(c)
    ensures !IsSpace(c) && Untouched(c)
  {
  }

  lemma WordClean(w: string)
    requires w == "" || Word(w)
    ensures Clean(w)
  {
    forall i | 0 <= i < |w|
      ensures !IsSpace(w[i])
    {
      LettersPrint(w[i]);
    }
  }

  lemma WordLiteral(w: string)
    requires w == "" || Word(w)
    ensures Quote(w) == Literal(w) && Unquote(Literal(w)) == Some(w)
  {
    forall i | 0 <= i < |w|
      ensures Untouched(w[i])
    {
      LettersPrint(w[i]);
    }
    PlainQuote(w);
    QuoteReads(w);
  }

  lemma QuoteIs(s: string, w: string)
    requires w == "" || Word(w)
    ensures Quote(s) == Literal(w) <==> s == w
  {
    WordLiteral(w);
    QuoteReads(s);
    QuoteReads(w);
  }

  predicate AllWords(n: StopNames) {
    && Word(n.stop) && Word(n.endTurn) && Word(n.toolUse) && Word(n.toolCalls)
    && Word(n.maxTokens) && Word(n.length) && Word(n.refusal) && Word(n.contentFilter)
  }

  lemma NamesClean(n: StopNames)
    requires AllWords(n)
    ensures Clean("") && Clean(n.stop) && Clean(n.endTurn) && Clean(n.toolUse) && Clean(n.maxTokens) && Clean(n.refusal)
  {
    WordClean(n.stop);
    WordClean(n.endTurn);
    WordClean(n.toolUse);
    WordClean(n.maxTokens);
    WordClean(n.refusal);
  }

  /** On a trimmed stop reason the two ways of naming it are the same. */
  lemma CleanNamed(s: string, n: StopNames)
    requires AllWords(n) && Clean(s)
    ensures NormalisedLiteral(Quote(s), n) == Quote(Normalised(s, n))
  {
    QuoteIs(s, "");
    QuoteIs(s, n.stop);
    QuoteIs(s, n.endTurn);
    QuoteIs(s, n.toolUse);
    QuoteIs(s, n.maxTokens);
    QuoteIs(s, n.refusal);
    WordLiteral(n.stop);
    WordLiteral(n.toolCalls);
    WordLiteral(n.length);
    WordLiteral(n.contentFilter);
  }

  lemma TrimClean(s: string)
    ensures Clean(Trim(s))
  {
    TrimIdempotent(s);
  }

  lemma NormalisedOneOf(s: string, n: StopNames, r: string)
    requires r == Normalised(s, n)
    ensures r == Trim(s) || r == n.stop || r == n.toolCalls || r == n.length || r == n.contentFilter
  {
  }

  lemma NormalisedClean(s: string, n: StopNames)
    requires AllWords(n)
    ensures Clean(Normalised(s, n))
  {
    var r := Normalised(s, n);
    NormalisedOneOf(s, n, r);
    if r == Trim(s) {
      TrimClean(s);
    } else {
      WordClean(r);
    }
  }

  lemma Unnamed(s: string, n: StopNames)
    requires AllWords(n) && !Clean(s)
    ensures s != "" && s != n.stop && s != n.endTurn && s != n.toolUse && s != n.maxTokens && s != n.refusal
  {
    NamesClean(n);
  }

  lemma UnnamedPassed(s: string, n: StopNames)
    requires AllWords(n) && s != "" && s != n.stop && s != n.endTurn && s != n.toolUse && s != n.maxTokens && s != n.refusal
    ensures NormalisedLiteral(Quote(s), n) == Quote(s)
  {
    QuoteIs(s, "");
    QuoteIs(s, n.stop);
    QuoteIs(s, n.endTurn);
    QuoteIs(s, n.toolUse);
    QuoteIs(s, n.maxTokens);
    QuoteIs(s, n.refusal);
  }

  /** On any other the fast path passes on what the slow path would have trimmed. */
  lemma UncleanPassed(s: string, n: StopNames)
    requires AllWords(n) && !Clean(s)
    ensures NormalisedLiteral(Quote(s), n) == Quote(s) && s != Normalised(s, n)
  {
    NormalisedClean(s, n);
    Unnamed(s, n);
    UnnamedPassed(s, n);
  }

  /** The two ways of naming a stop reason agree exactly when there is nothing to trim. */
  lemma StopReasonsAgree(s: string, n: StopNames)
    requires AllWords(n)
    ensures Unquote(NormalisedLiteral(Quote(s), n)) == Some(Normalised(s, n)) <==> Clean(s)
  {
    QuoteReads(s);
    if Clean(s) {
      CleanNamed(s, n);
      QuoteReads(Normalised(s, n));
    } else {
      UncleanPassed(s, n);
    }
  }

  lemma NamesAreWords()
    ensures AllWords(Names)
  {
  }
}
