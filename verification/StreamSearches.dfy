/** What a faultless stream cites and which searches it reports, in terms of its choices
    alone. */
module StreamSearches {
  import opened Text
  import opened AnthropicClient
  import opened StreamReading
  import opened StreamEnding
  import opened StreamContent
  import opened StreamThoughts

  // ---- what the choices say ----

  /** Citations in the order they first come. */
  function AddNew(cites: seq<string>, more: seq<string>): seq<string> {
    if more == [] then cites
    else
      var before, last := AddNew(cites, more[..|more| - 1]), more[|more| - 1];
      if last in before then before else before + [last]
  }

  function CitesOf(cs: seq<Choice>): seq<string> {
    if cs == [] then [] else AddNew(CitesOf(cs[..|cs| - 1]), cs[|cs| - 1].citations)
  }

  /** The first finished snapshot of a search. */
  function FirstDone(cs: seq<Choice>, id: string): Option<SearchItem> {
    if cs == [] then None
    else
      var before, c := FirstDone(cs[..|cs| - 1], id), cs[|cs| - 1];
      if before.None? && c.search.Some? && c.searchDone && c.search.value.id == id then c.search else before
  }

  /** The results of the searches, in the order they are finished. */
  function ResultsOf(cs: seq<Choice>): seq<(string, string)> {
    if cs == [] then []
    else
      var most, c := cs[..|cs| - 1], cs[|cs| - 1];
      ResultsOf(most)
      + if c.search.Some? && c.searchDone && FirstDone(most, c.search.value.id).None? then [(c.search.value.id, c.search.value.hits)] else []
  }

  // ---- what the reading has ----

  function Results(kinds: seq<Kind>): seq<(string, string)> {
    if kinds == [] then []
    else
      var k := kinds[|kinds| - 1];
      Results(kinds[..|kinds| - 1]) + if k.SearchResult? then [(k.resultFor, k.hits)] else []
  }

  lemma ResultsMore(kinds: seq<Kind>, k: Kind)
    ensures Results(kinds + [k]) == Results(kinds) + if k.SearchResult? then [(k.resultFor, k.hits)] else []
  {
    assert (kinds + [k])[..|kinds|] == kinds;
  }

  lemma NoResult(kinds: seq<Kind>, k: Kind)
    requires !k.SearchResult?
    ensures Results(kinds + [k]) == Results(kinds)
  {
    ResultsMore(kinds, k);
    assert Results(kinds) + [] == Results(kinds);
  }

  lemma ThinkResults(r: Reading, s: string)
    ensures Results(Think(r, s).kinds) == Results(r.kinds) && Results(Sign(r, s).kinds) == Results(r.kinds)
  {
    NoResult(r.kinds, ThinkingBlock);
  }

  lemma ReasonsResults(r: Reading, c: Choice)
    ensures Results(Reasons(r, c).kinds) == Results(r.kinds)
  {
    var r0 := SwitchReasoning(r, c.reasoningId);
    ThinkResults(r0, c.thinking);
    ThinkResults(Think(r0, c.thinking), c.signature);
  }

  lemma WriteResults(r: Reading, s: string)
    ensures Results(Write(r, s).kinds) == Results(r.kinds) && Results(Refuse(r, s).kinds) == Results(r.kinds)
  {
    NoResult(r.kinds, TextBlock);
  }

  predicate NewlyDone(searches: map<string, Option<SearchItem>>, c: Choice) {
    && c.search.Some? && c.searchDone
    && (c.search.value.id !in searches || searches[c.search.value.id].None?)
  }

  function ResultIn(searches: map<string, Option<SearchItem>>, c: Choice): seq<(string, string)> {
    if NewlyDone(searches, c) then [(c.search.value.id, c.search.value.hits)] else []
  }

  /** The searches after a choice. */
  function SearchedWith(searches: map<string, Option<SearchItem>>, c: Choice): map<string, Option<SearchItem>> {
    if c.search.None? then searches
    else if NewlyDone(searches, c) then searches[c.search.value.id := c.search]
    else if c.search.value.id in searches then searches
    else searches[c.search.value.id := None]
  }

  lemma SearchResults(r: Reading, c: Choice)
    requires c.search.Some?
    ensures var q := Search(r, c.search.value, c.searchDone);
      Results(q.kinds) == Results(r.kinds) + ResultIn(r.searches, c) && q.searches == SearchedWith(r.searches, c)
  {
    var item := c.search.value;
    NoResult(r.kinds, SearchBlock(item.id));
    ResultsMore(BeginSearch(r, item.id).kinds, SearchResult(item.id, item.hits));
    assert Results(r.kinds) + [] == Results(r.kinds);
    assert c.search == Some(item);
    if item.id !in r.searches {
      assert r.searches[item.id := None][item.id := Some(item)] == r.searches[item.id := Some(item)];
    }
  }

  lemma CallResults(r: Reading, t: ToolDelta)
    ensures Results(CallTool(r, t).kinds) == Results(r.kinds) && CallTool(r, t).searches == r.searches
  {
    NoResult(r.kinds, ToolBlock(t.id, t.name));
  }

  lemma {:induction false} CallsResults(r: Reading, calls: seq<ToolDelta>)
    ensures Results(CallTools(r, calls).kinds) == Results(r.kinds) && CallTools(r, calls).searches == r.searches
  {
    if calls != [] {
      var before, t := CallTools(r, calls[..|calls| - 1]), calls[|calls| - 1];
      CallsResults(r, calls[..|calls| - 1]);
      CallResults(before, t);
    }
  }

  lemma {:induction false} CiteResults(r: Reading, citations: seq<string>)
    ensures var q := CiteAll(r, citations);
      Results(q.kinds) == Results(r.kinds) && q.searches == r.searches && q.prose.cites == AddNew(r.prose.cites, citations)
  {
    if citations != [] {
      var before := CiteAll(r, citations[..|citations| - 1]);
      CiteResults(r, citations[..|citations| - 1]);
      NoResult(before.kinds, TextBlock);
    }
  }

  /** The searches are those of the choices, each with its first finished snapshot. */
  ghost predicate FoundSay(searches: map<string, Option<SearchItem>>, cs: seq<Choice>) {
    && (forall id :: id in searches <==> Searched(cs, id))
    && (forall id :: id in searches ==> searches[id] == FirstDone(cs, id))
  }

  /** The reading has the citations, the searches and their results that the choices say. */
  ghost predicate SearchesSay(r: Reading, cs: seq<Choice>) {
    r.prose.cites == CitesOf(cs) && Results(r.kinds) == ResultsOf(cs) && FoundSay(r.searches, cs)
  }

  lemma {:induction false} NotSearched(cs: seq<Choice>, id: string)
    requires !Searched(cs, id)
    ensures FirstDone(cs, id).None?
  {
    if cs != [] {
      assert forall j :: 0 <= j < |cs| - 1 ==> cs[..|cs| - 1][j] == cs[j];
      NotSearched(cs[..|cs| - 1], id);
    }
  }

  /** What a choice does to the searches. */
  lemma ProseSearches(r: Reading, c: Choice)
    ensures var q := ReadProse(r, c);
      && q.prose.cites == r.prose.cites && Results(q.kinds) == Results(r.kinds) + ResultIn(r.searches, c)
      && q.searches == SearchedWith(r.searches, c)
  {
    var r1 := Reasons(r, c);
    var r2 := if c.reasoningDone then Leave(r1) else r1;
    var r3 := if c.search.Some? then Search(r2, c.search.value, c.searchDone) else r2;
    ProsePhase(r, c);
    ReasonsPhase(r, c);
    ReasonsResults(r, c);
    if c.search.Some? { SearchResults(r2, c); }
    WriteResults(r3, c.content);
    WriteResults(Write(r3, c.content), c.refusal);
    WritePhase(r3, c.content);
    WritePhase(Write(r3, c.content), c.refusal);
    assert Results(r.kinds) + [] == Results(r.kinds);
  }

  lemma DoneMore(cs: seq<Choice>, c: Choice, id: string)
    ensures FirstDone(cs + [c], id) ==
      if FirstDone(cs, id).None? && c.search.Some? && c.searchDone && c.search.value.id == id then c.search else FirstDone(cs, id)
  {
    assert (cs + [c])[..|cs|] == cs;
  }

  lemma FoundMore(searches: map<string, Option<SearchItem>>, cs: seq<Choice>, c: Choice)
    requires FoundSay(searches, cs)
    ensures FoundSay(SearchedWith(searches, c), cs + [c])
    ensures NewlyDone(searches, c) <==> c.search.Some? && c.searchDone && FirstDone(cs, c.search.value.id).None?
  {
    if c.search.Some? && !Searched(cs, c.search.value.id) { NotSearched(cs, c.search.value.id); }
    forall id
      ensures id in SearchedWith(searches, c) <==> Searched(cs + [c], id)
      ensures id in SearchedWith(searches, c) ==> SearchedWith(searches, c)[id] == FirstDone(cs + [c], id)
    {
      SearchedMore(cs, c, id);
      DoneMore(cs, c, id);
    }
  }

  lemma SaidMore(cs: seq<Choice>, c: Choice, searches: map<string, Option<SearchItem>>)
    requires NewlyDone(searches, c) <==> c.search.Some? && c.searchDone && FirstDone(cs, c.search.value.id).None?
    ensures ResultsOf(cs + [c]) == ResultsOf(cs) + ResultIn(searches, c) && CitesOf(cs + [c]) == AddNew(CitesOf(cs), c.citations)
  {
    assert (cs + [c])[..|cs|] == cs;
  }

  lemma ChoiceSearches(r: Reading, c: Choice, cs: seq<Choice>)
    requires SearchesSay(r, cs) && ReadChoice(r, c).ending.fault.None?
    ensures SearchesSay(ReadChoice(r, c), cs + [c])
  {
    var prose := ReadProse(r, c);
    var called := CallTools(prose, c.toolCalls);
    ProseSearches(r, c);
    CallsResults(prose, c.toolCalls);
    ToolsPhase(prose, c.toolCalls);
    CiteResults(called, c.citations);
    FoundMore(r.searches, cs, c);
    SaidMore(cs, c, r.searches);
  }

  lemma SearchesKept()
    ensures Kept(SearchesSay) && EndingApart(SearchesSay)
  {
    forall r, c, cs | SearchesSay(r, cs) && ReadChoice(r, c).ending.fault.None?
      ensures SearchesSay(ReadChoice(r, c), cs + [c])
    {
      ChoiceSearches(r, c, cs);
    }
  }

  /** A stream read without a fault cites and searches what its choices say. */
  lemma SearchesAreSaid(events: seq<Event>)
    requires ReadEvents(events).ending.fault.None?
    ensures SearchesSay(ReadEvents(events), ChoicesRead(events))
  {
    SearchesKept();
    KeptByEvents(SearchesSay, events);
  }
}
