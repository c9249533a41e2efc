/** What a faultless stream says about reasoning, in terms of its choices alone: the
    signature and the text of each named item, and the stretches that belong to no item. */
module StreamThoughts {
  import opened StreamReading
  import opened StreamEnding
  import opened StreamContent
  import opened Text
  import Seqs

  // ---- what leaves reasoning behind ----

  ghost predicate Searched(cs: seq<Choice>, id: string) {
    exists j :: 0 <= j < |cs| && cs[j].search.Some? && cs[j].search.value.id == id
  }

  ghost predicate Cited(cs: seq<Choice>, citation: string) { exists j :: 0 <= j < |cs| && citation in cs[j].citations }

  ghost predicate NewSearch(cs: seq<Choice>, c: Choice) { c.search.Some? && !Searched(cs, c.search.value.id) }

  ghost predicate NewTool(cs: seq<Choice>, c: Choice) {
    exists j :: 0 <= j < |c.toolCalls| && FirstOf(Deltas(cs), c.toolCalls[j].index).None?
  }

  ghost predicate NewCitation(cs: seq<Choice>, c: Choice) {
    exists j :: 0 <= j < |c.citations| && !Cited(cs, c.citations[j])
  }

  /** Would further text join the text before it? */
  ghost predicate TextOpen(cs: seq<Choice>) {
    cs != [] &&
    var most, last := cs[..|cs| - 1], cs[|cs| - 1];
    if NewCitation(most, last) then true
    else if NewTool(most, last) then false
    else if last.content != "" || last.refusal != "" then true
    else if NewSearch(most, last) || last.thinking != "" then false
    else TextOpen(most)
  }

  /** Does the choice go on to something else than reasoning? */
  ghost predicate Leaves(cs: seq<Choice>, c: Choice) {
    || c.reasoningDone || c.content != "" || c.refusal != "" || NewSearch(cs, c) || NewTool(cs, c)
    || (NewCitation(cs, c) && (c.thinking != "" || !TextOpen(cs)))
  }

  // ---- notes ----

  /** One thing a choice says about reasoning. */
  datatype Note = Item(id: string) | Thinking(text: string) | Signature(signature: string) | Left

  function OneNoteIf(some: bool, n: Note): seq<Note> { if some then [n] else [] }

  function Reasoned(c: Choice): seq<Note> {
    OneNoteIf(c.reasoningId != "", Item(c.reasoningId)) + OneNoteIf(c.thinking != "", Thinking(c.thinking))
    + OneNoteIf(c.signature != "", Signature(c.signature))
  }

  ghost function Notes(cs: seq<Choice>): seq<Note> {
    if cs == [] then []
    else
      var most, last := cs[..|cs| - 1], cs[|cs| - 1];
      Notes(most) + Reasoned(last) + if Leaves(most, last) then [Left] else []
  }

  predicate Adds(n: Note) { n.Thinking? || n.Signature? }

  /** The item that is being spoken of. */
  function ItemNow(ns: seq<Note>): string {
    if ns == [] then "" else if ns[|ns| - 1].Item? then ns[|ns| - 1].id else ItemNow(ns[..|ns| - 1])
  }

  /** Is there any thinking or signature for the item? */
  predicate Mentioned(ns: seq<Note>, k: string) {
    ns != [] && (Mentioned(ns[..|ns| - 1], k) || (Adds(ns[|ns| - 1]) && ItemNow(ns[..|ns| - 1]) == k))
  }

  /** The first signature that comes while the item is being spoken of. */
  function SignatureOf(ns: seq<Note>, k: string): Option<string> {
    if ns == [] then None
    else
      var before, last := SignatureOf(ns[..|ns| - 1], k), ns[|ns| - 1];
      if before.None? && last.Signature? && ItemNow(ns[..|ns| - 1]) == k then Some(last.signature) else before
  }

  /** Has the item been left behind with its signature? */
  predicate Sealed(ns: seq<Note>, k: string) {
    ns != [] &&
    var most, last := ns[..|ns| - 1], ns[|ns| - 1];
    || Sealed(most, k)
    || (SignatureOf(most, k).Some? && ItemNow(most) == k && (last.Left? || (last.Item? && last.id != k)))
  }

  /** All thinking that comes while the item is being spoken of, until it is sealed. */
  function ThinkingOf(ns: seq<Note>, k: string): string {
    if ns == [] then ""
    else
      var most, last := ns[..|ns| - 1], ns[|ns| - 1];
      ThinkingOf(most, k) + if last.Thinking? && ItemNow(most) == k && !Sealed(most, k) then last.text else ""
  }

  // ---- stretches ----

  /** Does thinking that comes now join what was said before, for no item? */
  predicate StretchOpen(ns: seq<Note>) { ns != [] && Adds(ns[|ns| - 1]) && ItemNow(ns[..|ns| - 1]) == "" }

  /** What is said for no item, cut where something else comes between. */
  function Stretches(ns: seq<Note>): seq<seq<Note>> {
    if ns == [] then []
    else
      var most, last := ns[..|ns| - 1], ns[|ns| - 1];
      var before := Stretches(most);
      if !Adds(last) || ItemNow(most) != "" then before
      else if StretchOpen(most) && before != [] then before[..|before| - 1] + [before[|before| - 1] + [last]]
      else before + [[last]]
  }

  function TextOf(ns: seq<Note>): string {
    if ns == [] then "" else TextOf(ns[..|ns| - 1]) + if ns[|ns| - 1].Thinking? then ns[|ns| - 1].text else ""
  }

  function FirstSigned(ns: seq<Note>): seq<string> {
    if ns == [] then []
    else
      var before, last := FirstSigned(ns[..|ns| - 1]), ns[|ns| - 1];
      if before == [] && last.Signature? then [last.signature] else before
  }

  /** A stretch has all its thinking and the first of its signatures. */
  function Shorthand(stretches: seq<seq<Note>>): (r: seq<Stretch>)
    ensures |r| == |stretches|
  {
    seq(|stretches|, i requires 0 <= i < |stretches| => Stretch(TextOf(stretches[i]), FirstSigned(stretches[i])))
  }

  function Joined(stretches: seq<Stretch>): string {
    if stretches == [] then "" else Joined(stretches[..|stretches| - 1]) + stretches[|stretches| - 1].text
  }

  // ---- the reasoning says what the notes say ----

  ghost predicate ItemsSay(m: Reasoning, ns: seq<Note>) {
    && m.current == ItemNow(ns) && "" !in m.thoughts
    && (forall k :: k in m.thoughts <==> k != "" && Mentioned(ns, k))
    && (forall k :: k in m.thoughts ==> m.thoughts[k] == Thought(ThinkingOf(ns, k), SignatureOf(ns, k), Sealed(ns, k)))
  }

  ghost predicate StretchesSay(m: Reasoning, ns: seq<Note>) {
    && m.stretches == Shorthand(Stretches(ns))
    && (m.anonymousOpen <==> StretchOpen(ns))
    && (StretchOpen(ns) ==> Stretches(ns) != [])
    && (m.anonymousSigned <==> StretchOpen(ns) && FirstSigned(Stretches(ns)[|Stretches(ns)| - 1]) != [])
  }

  ghost predicate ThoughtsSay(m: Reasoning, ns: seq<Note>) { ItemsSay(m, ns) && StretchesSay(m, ns) }

  function Begun(m: Reasoning): Reasoning {
    if !BeginsItem(m) then m
    else if m.current == "" then m.(anonymousOpen := true, stretches := m.stretches + [Stretch("", [])])
    else m.(thoughts := m.thoughts[m.current := Thought("", None, false)])
  }

  /** What a note does to the reasoning. */
  function Noted(m: Reasoning, n: Note): Reasoning {
    match n
    case Item(id) => if id == m.current then m else LeaveReasoning(m).(current := id)
    case Thinking(s) => AddThinking(Begun(m), s)
    case Signature(s) => AddSignature(Begun(m), s)
    case Left => LeaveReasoning(m)
  }

  lemma NoteAdded(ns: seq<Note>, n: Note, k: string)
    ensures ItemNow(ns + [n]) == if n.Item? then n.id else ItemNow(ns)
    ensures Mentioned(ns + [n], k) <==> Mentioned(ns, k) || (Adds(n) && ItemNow(ns) == k)
    ensures SignatureOf(ns + [n], k) ==
      if SignatureOf(ns, k).None? && n.Signature? && ItemNow(ns) == k then Some(n.signature) else SignatureOf(ns, k)
    ensures Sealed(ns + [n], k) <==>
      Sealed(ns, k) || (SignatureOf(ns, k).Some? && ItemNow(ns) == k && (n.Left? || (n.Item? && n.id != k)))
    ensures ThinkingOf(ns + [n], k) == ThinkingOf(ns, k) + if n.Thinking? && ItemNow(ns) == k && !Sealed(ns, k) then n.text else ""
  {
    assert (ns + [n])[..|ns|] == ns;
  }

  /** An item that is not mentioned has nothing. */
  lemma {:induction false} Unmentioned(ns: seq<Note>, k: string)
    requires !Mentioned(ns, k)
    ensures SignatureOf(ns, k).None? && ThinkingOf(ns, k) == "" && !Sealed(ns, k)
  {
    if ns != [] { Unmentioned(ns[..|ns| - 1], k); }
  }

  ghost predicate ThoughtSays(t: Thought, ns: seq<Note>, k: string) {
    t == Thought(ThinkingOf(ns, k), SignatureOf(ns, k), Sealed(ns, k))
  }

  /** Notes about something else leave an item as it is. */
  lemma OtherItem(t: Thought, ns: seq<Note>, n: Note, k: string)
    requires ThoughtSays(t, ns, k) && ItemNow(ns) != k
    ensures ThoughtSays(t, ns + [n], k)
  {
    NoteAdded(ns, n, k);
    assert ThinkingOf(ns, k) + "" == ThinkingOf(ns, k);
  }

  lemma LeftItem(t: Thought, ns: seq<Note>, n: Note, k: string)
    requires ThoughtSays(t, ns, k) && ItemNow(ns) == k && (n.Left? || (n.Item? && n.id != k))
    ensures ThoughtSays(if t.signature.Some? then t.(closed := true) else t, ns + [n], k)
  {
    NoteAdded(ns, n, k);
    assert ThinkingOf(ns, k) + "" == ThinkingOf(ns, k);
    SealedSigned(ns, k);
  }

  lemma {:induction false} SealedSigned(ns: seq<Note>, k: string)
    ensures Sealed(ns, k) ==> SignatureOf(ns, k).Some?
  {
    if ns != [] { SealedSigned(ns[..|ns| - 1], k); }
  }

  /** Going on to something else. */
  lemma LeavingItems(m: Reasoning, ns: seq<Note>, n: Note)
    requires ItemsSay(m, ns) && (n.Left? || (n.Item? && n.id != m.current))
    ensures ItemsSay(LeaveReasoning(m).(current := if n.Item? then n.id else m.current), ns + [n])
  {
    var left := LeaveReasoning(m);
    forall k
      ensures k in left.thoughts <==> k != "" && Mentioned(ns + [n], k)
      ensures k in left.thoughts ==> ThoughtSays(left.thoughts[k], ns + [n], k)
    {
      NoteAdded(ns, n, k);
      if k in m.thoughts {
        if k == m.current { LeftItem(m.thoughts[k], ns, n, k); } else { OtherItem(m.thoughts[k], ns, n, k); }
      }
    }
    NoteAdded(ns, n, "");
  }

  lemma SameItem(m: Reasoning, ns: seq<Note>)
    requires ItemsSay(m, ns)
    ensures ItemsSay(m, ns + [Item(m.current)])
  {
    forall k
      ensures k in m.thoughts <==> k != "" && Mentioned(ns + [Item(m.current)], k)
      ensures k in m.thoughts ==> ThoughtSays(m.thoughts[k], ns + [Item(m.current)], k)
    {
      NoteAdded(ns, Item(m.current), k);
      assert ThinkingOf(ns, k) + "" == ThinkingOf(ns, k);
    }
    NoteAdded(ns, Item(m.current), "");
  }

  lemma BegunItem(m: Reasoning, ns: seq<Note>)
    requires ItemsSay(m, ns) && m.current != ""
    ensures m.current in Begun(m).thoughts && ThoughtSays(Begun(m).thoughts[m.current], ns, m.current)
  {
    if m.current !in m.thoughts { Unmentioned(ns, m.current); }
  }

  lemma ItemThinks(t: Thought, ns: seq<Note>, s: string, k: string)
    requires ThoughtSays(t, ns, k) && ItemNow(ns) == k
    ensures ThoughtSays(if t.closed then t else t.(text := t.text + s), ns + [Thinking(s)], k)
  {
    NoteAdded(ns, Thinking(s), k);
    assert ThinkingOf(ns, k) + "" == ThinkingOf(ns, k);
  }

  lemma ItemSigns(t: Thought, ns: seq<Note>, s: string, k: string)
    requires ThoughtSays(t, ns, k) && ItemNow(ns) == k
    ensures ThoughtSays(if t.signature.Some? then t else t.(signature := Some(s)), ns + [Signature(s)], k)
  {
    NoteAdded(ns, Signature(s), k);
    assert ThinkingOf(ns, k) + "" == ThinkingOf(ns, k);
  }

  /** What a note makes of the item it is about. */
  lemma ThisItem(m: Reasoning, ns: seq<Note>, n: Note)
    requires ItemsSay(m, ns) && Adds(n) && m.current != ""
    ensures m.current in Noted(m, n).thoughts && ThoughtSays(Noted(m, n).thoughts[m.current], ns + [n], m.current)
  {
    var b := Begun(m).thoughts[m.current];
    BegunItem(m, ns);
    match n
    case Thinking(s) => ItemThinks(b, ns, s, m.current);
    case Signature(s) => ItemSigns(b, ns, s, m.current);
  }

  /** A note that adds something changes the current item only. */
  lemma NotedApart(m: Reasoning, n: Note)
    requires Adds(n) && "" !in m.thoughts
    ensures Noted(m, n).current == m.current && "" !in Noted(m, n).thoughts
    ensures forall k :: k in Noted(m, n).thoughts <==> k in m.thoughts || (k == m.current && k != "")
    ensures forall k :: k in m.thoughts && k != m.current ==> Noted(m, n).thoughts[k] == m.thoughts[k]
  {
  }

  lemma MentionedNow(m: Reasoning, thoughts: map<string, Thought>, ns: seq<Note>, n: Note)
    requires ItemsSay(m, ns) && Adds(n)
    requires forall k :: k in thoughts <==> k in m.thoughts || (k == m.current && k != "")
    ensures m.current == ItemNow(ns + [n]) && forall k :: k in thoughts <==> k != "" && Mentioned(ns + [n], k)
  {
    forall k
      ensures k in thoughts <==> k != "" && Mentioned(ns + [n], k)
    {
      NoteAdded(ns, n, k);
    }
    NoteAdded(ns, n, "");
  }

  lemma OtherItems(m: Reasoning, thoughts: map<string, Thought>, ns: seq<Note>, n: Note)
    requires ItemsSay(m, ns)
    requires forall k :: k in m.thoughts && k != m.current ==> k in thoughts && thoughts[k] == m.thoughts[k]
    ensures forall k :: k in m.thoughts && k != m.current ==> ThoughtSays(thoughts[k], ns + [n], k)
  {
    forall k | k in m.thoughts && k != m.current
      ensures ThoughtSays(thoughts[k], ns + [n], k)
    {
      OtherItem(m.thoughts[k], ns, n, k);
    }
  }

  lemma AddingItems(m: Reasoning, ns: seq<Note>, n: Note)
    requires ItemsSay(m, ns) && Adds(n)
    ensures ItemsSay(Noted(m, n), ns + [n])
  {
    NotedApart(m, n);
    MentionedNow(m, Noted(m, n).thoughts, ns, n);
    OtherItems(m, Noted(m, n).thoughts, ns, n);
    if m.current != "" { ThisItem(m, ns, n); }
  }

  // ---- stretches, one note at a time ----

  lemma OtherNote(m: Reasoning, ns: seq<Note>, n: Note)
    requires ItemsSay(m, ns) && StretchesSay(m, ns) && (!Adds(n) || m.current != "")
    ensures Stretches(ns + [n]) == Stretches(ns) && !StretchOpen(ns + [n])
  {
    assert (ns + [n])[..|ns|] == ns;
  }

  /** While an item is spoken of nothing is open for no item. */
  lemma NamedForGood(ns: seq<Note>)
    ensures ItemNow(ns) != "" ==> !StretchOpen(ns)
  {
  }

  /** The stretches with the one that a note adds to at the end. */
  function ToAdd(ns: seq<Note>): (r: seq<seq<Note>>)
    ensures r != []
  {
    if StretchOpen(ns) && Stretches(ns) != [] then Stretches(ns) else Stretches(ns) + [[]]
  }

  lemma StretchAdded(ns: seq<Note>, n: Note)
    requires Adds(n) && ItemNow(ns) == ""
    ensures StretchOpen(ns + [n])
    ensures var r := ToAdd(ns); Stretches(ns + [n]) == r[..|r| - 1] + [r[|r| - 1] + [n]]
  {
    assert (ns + [n])[..|ns|] == ns;
    assert [] + [n] == [n];
  }

  lemma OneNote(g: seq<Note>, n: Note)
    ensures TextOf(g + [n]) == TextOf(g) + if n.Thinking? then n.text else ""
    ensures FirstSigned(g + [n]) == if FirstSigned(g) == [] && n.Signature? then [n.signature] else FirstSigned(g)
  {
    assert (g + [n])[..|g|] == g;
  }

  function InShort(g: seq<Note>): Stretch { Stretch(TextOf(g), FirstSigned(g)) }

  lemma ShorthandLast(r: seq<seq<Note>>, g: seq<Note>)
    ensures Shorthand(r + [g]) == Shorthand(r) + [InShort(g)]
  {
  }

  lemma LengthenedLast(a: seq<Stretch>, t: Stretch, text: string, signatures: seq<string>)
    ensures Lengthened(a + [t], text, signatures) == a + [Stretch(t.text + text, t.signatures + signatures)]
  {
    assert (a + [t])[..|a|] == a;
  }

  lemma NothingMore(t: Stretch)
    ensures t.text + "" == t.text && t.signatures + [] == t.signatures
  {
  }

  /** What a note makes of the stretch it adds to. */
  lemma StretchNoted(before: seq<seq<Note>>, last: seq<Note>, n: Note)
    requires Adds(n)
    ensures Shorthand(before + [last + [n]]) ==
      if n.Thinking? then Lengthened(Shorthand(before + [last]), n.text, [])
      else if FirstSigned(last) == [] then Lengthened(Shorthand(before + [last]), "", [n.signature])
      else Shorthand(before + [last])
  {
    OneNote(last, n);
    ShorthandLast(before, last);
    ShorthandLast(before, last + [n]);
    NothingMore(InShort(last));
    if n.Thinking? {
      LengthenedLast(Shorthand(before), InShort(last), n.text, []);
    } else {
      LengthenedLast(Shorthand(before), InShort(last), "", [n.signature]);
      assert [] + [n.signature] == [n.signature];
    }
  }

  lemma StretchBegun(m: Reasoning, ns: seq<Note>)
    requires StretchesSay(m, ns) && m.current == ""
    ensures Begun(m).stretches == Shorthand(ToAdd(ns)) && Begun(m).anonymousOpen
    ensures Begun(m).anonymousSigned <==> FirstSigned(ToAdd(ns)[|ToAdd(ns)| - 1]) != []
    ensures Begun(m).thoughts == m.thoughts && Begun(m).current == m.current
  {
    if !m.anonymousOpen {
      assert Shorthand(Stretches(ns) + [[]]) == Shorthand(Stretches(ns)) + [Stretch("", [])];
    }
  }

  /** The stretches after a note for no item. */
  lemma StretchesNow(m: Reasoning, ns: seq<Note>, n: Note)
    requires StretchesSay(m, ns) && m.current == ItemNow(ns) == "" && "" !in m.thoughts && Adds(n)
    ensures Noted(m, n).stretches == Shorthand(Stretches(ns + [n])) && Noted(m, n).anonymousOpen
  {
    var before, last := ToAdd(ns)[..|ToAdd(ns)| - 1], ToAdd(ns)[|ToAdd(ns)| - 1];
    assert ToAdd(ns) == before + [last];
    StretchBegun(m, ns);
    StretchAdded(ns, n);
    StretchNoted(before, last, n);
  }

  /** Is the open stretch signed? */
  lemma SignedNow(m: Reasoning, ns: seq<Note>, n: Note)
    requires StretchesSay(m, ns) && m.current == ItemNow(ns) == "" && "" !in m.thoughts && Adds(n)
    ensures Stretches(ns + [n]) != [] && StretchOpen(ns + [n])
    ensures Noted(m, n).anonymousSigned <==> FirstSigned(Stretches(ns + [n])[|Stretches(ns + [n])| - 1]) != []
  {
    StretchBegun(m, ns);
    StretchAdded(ns, n);
    OneNote(ToAdd(ns)[|ToAdd(ns)| - 1], n);
  }

  lemma StretchSays(m: Reasoning, ns: seq<Note>, n: Note)
    requires StretchesSay(m, ns) && m.current == ItemNow(ns) == "" && "" !in m.thoughts && Adds(n)
    ensures StretchesSay(Noted(m, n), ns + [n])
  {
    StretchesNow(m, ns, n);
    SignedNow(m, ns, n);
  }

  lemma AddingStretches(m: Reasoning, ns: seq<Note>, n: Note)
    requires ItemsSay(m, ns) && StretchesSay(m, ns) && Adds(n)
    ensures StretchesSay(Noted(m, n), ns + [n])
  {
    if m.current == "" {
      StretchSays(m, ns, n);
    } else {
      NamedForGood(ns);
      OtherNote(m, ns, n);
      BegunItem(m, ns);
    }
  }

  lemma OtherStretches(m: Reasoning, ns: seq<Note>, n: Note)
    requires ItemsSay(m, ns) && StretchesSay(m, ns) && !Adds(n) && (n.Item? ==> n.id != "")
    ensures StretchesSay(Noted(m, n), ns + [n])
  {
    OtherNote(m, ns, n);
    NamedForGood(ns);
  }

  /** All thinking that comes before any item is named. */
  function LooseText(ns: seq<Note>): string {
    if ns == [] then ""
    else
      var most, last := ns[..|ns| - 1], ns[|ns| - 1];
      LooseText(most) + if last.Thinking? && ItemNow(most) == "" then last.text else ""
  }

  lemma JoinedLast(before: seq<Stretch>, last: Stretch)
    ensures Joined(before + [last]) == Joined(before) + last.text
  {
    assert (before + [last])[..|before|] == before;
  }

  lemma StretchJoined(before: seq<seq<Note>>, last: seq<Note>, n: Note)
    ensures Joined(Shorthand(before + [last + [n]])) == Joined(Shorthand(before + [last])) + if n.Thinking? then n.text else ""
  {
    OneNote(last, n);
    ShorthandLast(before, last);
    ShorthandLast(before, last + [n]);
    JoinedLast(Shorthand(before), InShort(last));
    JoinedLast(Shorthand(before), InShort(last + [n]));
    Seqs.Assoc(Joined(Shorthand(before)), TextOf(last), if n.Thinking? then n.text else "");
  }

  lemma JoinedMore(ns: seq<Note>, n: Note)
    ensures Joined(Shorthand(Stretches(ns + [n]))) ==
      Joined(Shorthand(Stretches(ns))) + if n.Thinking? && ItemNow(ns) == "" then n.text else ""
  {
    if Adds(n) && ItemNow(ns) == "" {
      var before, last := ToAdd(ns)[..|ToAdd(ns)| - 1], ToAdd(ns)[|ToAdd(ns)| - 1];
      assert ToAdd(ns) == before + [last];
      StretchAdded(ns, n);
      StretchJoined(before, last, n);
      WithEmpty(ns);
    } else {
      assert (ns + [n])[..|ns|] == ns;
      assert Joined(Shorthand(Stretches(ns))) + "" == Joined(Shorthand(Stretches(ns)));
    }
  }

  /** The stretches lose nothing of it. */
  lemma {:induction false} StretchesWhole(ns: seq<Note>)
    ensures Joined(Shorthand(Stretches(ns))) == LooseText(ns)
  {
    if ns != [] {
      var most, n := ns[..|ns| - 1], ns[|ns| - 1];
      StretchesWhole(most);
      assert ns == most + [n];
      JoinedMore(most, n);
    }
  }

  lemma WithEmpty(ns: seq<Note>)
    ensures Joined(Shorthand(ToAdd(ns))) == Joined(Shorthand(Stretches(ns)))
  {
    ShorthandLast(Stretches(ns), []);
    JoinedLast(Shorthand(Stretches(ns)), InShort([]));
  }

  // ---- whole choices ----

  lemma NoteSays(m: Reasoning, ns: seq<Note>, n: Note)
    requires ThoughtsSay(m, ns) && (n.Item? ==> n.id != "")
    ensures ThoughtsSay(Noted(m, n), ns + [n])
  {
    if Adds(n) {
      AddingItems(m, ns, n);
      AddingStretches(m, ns, n);
    } else {
      if n.Item? && n.id == m.current { SameItem(m, ns); } else { LeavingItems(m, ns, n); }
      OtherStretches(m, ns, n);
    }
  }

  function NotedAll(m: Reasoning, ns: seq<Note>): Reasoning {
    if ns == [] then m else Noted(NotedAll(m, ns[..|ns| - 1]), ns[|ns| - 1])
  }

  lemma {:induction false} NotedSay(m: Reasoning, ns: seq<Note>, more: seq<Note>)
    requires ThoughtsSay(m, ns) && forall n :: n in more && n.Item? ==> n.id != ""
    ensures ThoughtsSay(NotedAll(m, more), ns + more)
  {
    if more == [] {
      assert ns + more == ns;
    } else {
      var most, last := more[..|more| - 1], more[|more| - 1];
      NotedSay(m, ns, most);
      assert ns + more == ns + most + [last];
      NoteSays(NotedAll(m, most), ns + most, last);
    }
  }

  function Reasons(r: Reading, c: Choice): Reading { Sign(Think(SwitchReasoning(r, c.reasoningId), c.thinking), c.signature) }

  lemma ThreeNoted(m: Reasoning, a: seq<Note>, b: seq<Note>, c: seq<Note>)
    requires |a| <= 1 && |b| <= 1 && |c| <= 1
    ensures NotedAll(m, a + b + c) == NotedIf(NotedIf(NotedIf(m, a), b), c)
  {
    NotedOne(m, [], a);
    NotedOne(m, a, b);
    NotedOne(m, a + b, c);
    assert [] + a == a;
  }

  function NotedIf(m: Reasoning, ns: seq<Note>): Reasoning { if ns == [] then m else Noted(m, ns[0]) }

  lemma ReasonsNoted(r: Reading, c: Choice)
    ensures Reasons(r, c).reasoning == NotedAll(r.reasoning, Reasoned(c))
  {
    var r0 := SwitchReasoning(r, c.reasoningId);
    SwitchNoted(r, c.reasoningId);
    ThinkNoted(r0, c.thinking);
    SignNoted(Think(r0, c.thinking), c.signature);
    ThreeNoted(r.reasoning, OneNoteIf(c.reasoningId != "", Item(c.reasoningId)), OneNoteIf(c.thinking != "", Thinking(c.thinking)),
      OneNoteIf(c.signature != "", Signature(c.signature)));
  }

  lemma SwitchNoted(r: Reading, id: string)
    ensures SwitchReasoning(r, id).reasoning == if id != "" then Noted(r.reasoning, Item(id)) else r.reasoning
  {
  }

  lemma ThinkNoted(r: Reading, s: string)
    ensures Think(r, s).reasoning == if s != "" then Noted(r.reasoning, Thinking(s)) else r.reasoning
  {
  }

  lemma SignNoted(r: Reading, s: string)
    ensures Sign(r, s).reasoning == if s != "" then Noted(r.reasoning, Signature(s)) else r.reasoning
  {
  }

  lemma NotedOne(m: Reasoning, ns: seq<Note>, last: seq<Note>)
    requires |last| <= 1
    ensures NotedAll(m, ns + last) == if last == [] then NotedAll(m, ns) else Noted(NotedAll(m, ns), last[0])
  {
    if last == [] {
      assert ns + last == ns;
    } else {
      assert (ns + last)[..|ns|] == ns;
    }
  }

  // ---- leaving, phase by phase ----

  function LeftIf(m: Reasoning, leaves: bool): Reasoning { if leaves then LeaveReasoning(m) else m }

  lemma LeftTwice(m: Reasoning, a: bool, b: bool)
    ensures LeftIf(LeftIf(m, a), b) == LeftIf(m, a || b)
  {
    var left := LeaveReasoning(m);
    assert LeaveReasoning(left).thoughts == left.thoughts;
  }

  lemma SearchPhase(r: Reading, item: SearchItem, done: bool)
    ensures var q := Search(r, item, done);
      && q.reasoning == LeftIf(r.reasoning, item.id !in r.searches)
      && q.prose == (if item.id !in r.searches then r.prose.(open := false) else r.prose)
      && q.tools == r.tools && q.searches.Keys == r.searches.Keys + {item.id}
  {
  }

  lemma WritePhase(r: Reading, s: string)
    ensures var q := Write(r, s);
      && q.reasoning == Refuse(r, s).reasoning == LeftIf(r.reasoning, s != "") && q.prose == Refuse(r, s).prose
      && q.prose.open == (r.prose.open || s != "") && q.prose.cites == r.prose.cites
      && q.tools == Refuse(r, s).tools == r.tools && q.searches == Refuse(r, s).searches == r.searches
  {
  }

  lemma ReasonsPhase(r: Reading, c: Choice)
    ensures var q := Reasons(r, c);
      q.prose == (if c.thinking != "" then r.prose.(open := false) else r.prose) && q.tools == r.tools && q.searches == r.searches
  {
    var r0 := SwitchReasoning(r, c.reasoningId);
    ThinkingApart(r0, c.thinking);
    SigningApart(Think(r0, c.thinking), c.signature);
  }

  lemma BeginApart(r: Reading)
    ensures BeginItem(r).prose == r.prose && BeginItem(r).tools == r.tools && BeginItem(r).searches == r.searches
  {
  }

  lemma ThinkingApart(r: Reading, s: string)
    ensures Think(r, s).prose == (if s != "" then r.prose.(open := false) else r.prose)
    ensures Think(r, s).tools == r.tools && Think(r, s).searches == r.searches
  {
    BeginApart(EndText(r));
  }

  lemma SigningApart(r: Reading, s: string)
    ensures Sign(r, s).prose == r.prose && Sign(r, s).tools == r.tools && Sign(r, s).searches == r.searches
  {
    BeginApart(r);
  }

  predicate SearchIsNew(r: Reading, c: Choice) { c.search.Some? && c.search.value.id !in r.searches }

  predicate Speaks(c: Choice) { c.content != "" || c.refusal != "" }

  /** Up to the text of a choice. */
  lemma AsidePhase(r: Reading, c: Choice, q: Reading)
    requires q == (var r1 := Reasons(r, c);
                   var r2 := if c.reasoningDone then Leave(r1) else r1;
                   if c.search.Some? then Search(r2, c.search.value, c.searchDone) else r2)
    ensures q.reasoning == LeftIf(Reasons(r, c).reasoning, c.reasoningDone || SearchIsNew(r, c))
    ensures q.prose.open == (r.prose.open && c.thinking == "" && !SearchIsNew(r, c)) && q.prose.cites == r.prose.cites
    ensures q.tools == r.tools && q.searches.Keys == r.searches.Keys + if c.search.Some? then {c.search.value.id} else {}
  {
    var r1 := Reasons(r, c);
    var r2 := if c.reasoningDone then Leave(r1) else r1;
    ReasonsPhase(r, c);
    assert r2.reasoning == LeftIf(r1.reasoning, c.reasoningDone);
    if c.search.Some? {
      SearchPhase(r2, c.search.value, c.searchDone);
      LeftTwice(r1.reasoning, c.reasoningDone, SearchIsNew(r, c));
    } else {
      assert r.searches.Keys + {} == r.searches.Keys;
    }
  }

  lemma ProsePhase(r: Reading, c: Choice)
    ensures var q := ReadProse(r, c);
      && q.reasoning == LeftIf(Reasons(r, c).reasoning, c.reasoningDone || SearchIsNew(r, c) || Speaks(c))
      && q.prose.open == (Speaks(c) || (r.prose.open && c.thinking == "" && !SearchIsNew(r, c))) && q.prose.cites == r.prose.cites
      && q.tools == r.tools && q.searches.Keys == r.searches.Keys + if c.search.Some? then {c.search.value.id} else {}
  {
    var r1 := Reasons(r, c);
    var r2 := if c.reasoningDone then Leave(r1) else r1;
    var r3 := if c.search.Some? then Search(r2, c.search.value, c.searchDone) else r2;
    AsidePhase(r, c, r3);
    WritePhase(r3, c.content);
    WritePhase(Write(r3, c.content), c.refusal);
    LeftTwice(r3.reasoning, c.content != "", c.refusal != "");
    LeftTwice(r1.reasoning, c.reasoningDone || SearchIsNew(r, c), Speaks(c));
    assert ReadProse(r, c) == Refuse(Write(r3, c.content), c.refusal);
  }

  predicate ToolIsNew(tools: map<int, ToolText>, calls: seq<ToolDelta>) {
    exists j :: 0 <= j < |calls| && calls[j].index !in tools
  }

  /** The indexes of these tools are those of others and of the calls. */
  ghost predicate HasAll(tools: map<int, ToolText>, others: map<int, ToolText>, calls: seq<ToolDelta>) {
    forall i :: i in tools <==> i in others || HasIndex(calls, i)
  }

  predicate HasIndex(calls: seq<ToolDelta>, i: int) { exists j :: 0 <= j < |calls| && calls[j].index == i }

  lemma IndexMore(calls: seq<ToolDelta>, i: int)
    requires calls != []
    ensures HasIndex(calls, i) <==> HasIndex(calls[..|calls| - 1], i) || calls[|calls| - 1].index == i
  {
    assert forall j :: 0 <= j < |calls| - 1 ==> calls[..|calls| - 1][j] == calls[j];
  }

  lemma NewMore(tools: map<int, ToolText>, calls: seq<ToolDelta>, before: map<int, ToolText>)
    requires calls != [] && HasAll(before, tools, calls[..|calls| - 1])
    ensures var last := calls[|calls| - 1].index;
      && (ToolIsNew(tools, calls) <==> ToolIsNew(tools, calls[..|calls| - 1]) || last !in before)
      && forall i :: i in before || i == last <==> i in tools || HasIndex(calls, i)
  {
    var most := calls[..|calls| - 1];
    assert forall j :: 0 <= j < |most| ==> most[j] == calls[j];
    forall i: int { IndexMore(calls, i); }
    assert HasIndex(most, calls[|calls| - 1].index) && calls[|calls| - 1].index !in tools ==> ToolIsNew(tools, most);
  }

  lemma OneCall(r: Reading, t: ToolDelta)
    requires CallTool(r, t).ending.fault.None?
    ensures var q := CallTool(r, t);
      && q.reasoning == LeftIf(r.reasoning, t.index !in r.tools) && q.prose == (if t.index in r.tools then r.prose else r.prose.(open := false))
      && q.searches == r.searches && q.tools.Keys == r.tools.Keys + {t.index}
  {
  }

  lemma {:induction false} ToolsPhase(r: Reading, calls: seq<ToolDelta>)
    requires CallTools(r, calls).ending.fault.None?
    ensures HasAll(CallTools(r, calls).tools, r.tools, calls)
    ensures var q := CallTools(r, calls);
      && q.reasoning == LeftIf(r.reasoning, ToolIsNew(r.tools, calls))
      && q.prose.open == (r.prose.open && !ToolIsNew(r.tools, calls)) && q.prose.cites == r.prose.cites && q.searches == r.searches
  {
    if calls != [] {
      var n := |calls| - 1;
      var before := CallTools(r, calls[..n]);
      ToolsPhase(r, calls[..n]);
      OneCall(before, calls[n]);
      LeftTwice(r.reasoning, ToolIsNew(r.tools, calls[..n]), calls[n].index !in before.tools);
      NewMore(r.tools, calls, before.tools);
    }
  }

  predicate CitationIsNew(cites: seq<string>, citations: seq<string>) {
    exists j :: 0 <= j < |citations| && citations[j] !in cites
  }

  lemma {:induction false} CitePhase(r: Reading, citations: seq<string>)
    ensures var q := CiteAll(r, citations);
      && q.reasoning == LeftIf(r.reasoning, CitationIsNew(r.prose.cites, citations) && !r.prose.open)
      && q.prose.open == (r.prose.open || CitationIsNew(r.prose.cites, citations)) && q.searches == r.searches && q.tools == r.tools
      && (forall x :: x in q.prose.cites <==> x in r.prose.cites || x in citations)
  {
    if citations != [] {
      var n := |citations| - 1;
      var before := CiteAll(r, citations[..n]);
      CitePhase(r, citations[..n]);
      LeftTwice(r.reasoning, CitationIsNew(r.prose.cites, citations[..n]) && !r.prose.open,
        citations[n] !in before.prose.cites && !before.prose.open);
      assert forall j :: 0 <= j < n ==> citations[..n][j] == citations[j];
      assert forall x :: x in citations <==> x in citations[..n] || x == citations[n];
      assert CitationIsNew(r.prose.cites, citations) <==> CitationIsNew(r.prose.cites, citations[..n]) || citations[n] !in r.prose.cites;
      if citations[n] !in r.prose.cites && citations[n] in citations[..n] {
        assert CitationIsNew(r.prose.cites, citations[..n]);
      }
    }
  }

  // ---- whole streams ----

  /** The rest of the reading, as far as leaving depends on it. */
  ghost predicate RestSays(r: Reading, cs: seq<Choice>) {
    && (forall id :: id in r.searches <==> Searched(cs, id)) && (forall x :: x in r.prose.cites <==> Cited(cs, x))
    && (forall i :: i in r.tools <==> FirstOf(Deltas(cs), i).Some?) && (r.prose.open <==> TextOpen(cs))
  }

  lemma NewAlike(r: Reading, cs: seq<Choice>, c: Choice)
    requires RestSays(r, cs)
    ensures SearchIsNew(r, c) == NewSearch(cs, c) && ToolIsNew(r.tools, c.toolCalls) == NewTool(cs, c)
    ensures CitationIsNew(r.prose.cites, c.citations) == NewCitation(cs, c)
  {
  }

  lemma SearchedMore(cs: seq<Choice>, c: Choice, id: string)
    ensures Searched(cs + [c], id) <==> Searched(cs, id) || (c.search.Some? && c.search.value.id == id)
  {
    assert forall j :: 0 <= j < |cs| ==> (cs + [c])[j] == cs[j];
    assert (cs + [c])[|cs|] == c;
  }

  lemma CitedMore(cs: seq<Choice>, c: Choice, x: string)
    ensures Cited(cs + [c], x) <==> Cited(cs, x) || x in c.citations
  {
    assert forall j :: 0 <= j < |cs| ==> (cs + [c])[j] == cs[j];
    assert (cs + [c])[|cs|] == c;
  }

  lemma {:induction false} FirstMore(calls: seq<ToolDelta>, more: seq<ToolDelta>, i: int)
    ensures FirstOf(calls + more, i).Some? <==> FirstOf(calls, i).Some? || HasIndex(more, i)
  {
    if more == [] {
      assert calls + more == calls;
    } else {
      var most, last := more[..|more| - 1], more[|more| - 1];
      FirstMore(calls, most, i);
      FragmentAdded(calls + most, last, i);
      assert calls + more == calls + most + [last];
      IndexMore(more, i);
    }
  }

  /** A choice leaves reasoning behind exactly if it goes on to something else. */
  lemma ChoicePhase(r: Reading, c: Choice, cs: seq<Choice>)
    requires RestSays(r, cs) && ReadChoice(r, c).ending.fault.None?
    ensures ReadChoice(r, c).reasoning == LeftIf(Reasons(r, c).reasoning, Leaves(cs, c))
    ensures ReadChoice(r, c).prose.open <==> TextOpen(cs + [c])
  {
    var prose := ReadProse(r, c);
    var called := CallTools(prose, c.toolCalls);
    assert (cs + [c])[..|cs|] == cs;
    NewAlike(r, cs, c);
    ProsePhase(r, c);
    ToolsPhase(prose, c.toolCalls);
    CitePhase(called, c.citations);
    var m := Reasons(r, c).reasoning;
    LeftTwice(m, c.reasoningDone || SearchIsNew(r, c) || Speaks(c), NewTool(cs, c));
    LeftTwice(m, c.reasoningDone || SearchIsNew(r, c) || Speaks(c) || NewTool(cs, c), NewCitation(cs, c) && !called.prose.open);
  }

  lemma RestKeys(r: Reading, c: Choice, cs: seq<Choice>)
    requires RestSays(r, cs) && ReadChoice(r, c).ending.fault.None?
    ensures var q := ReadChoice(r, c);
      && q.searches.Keys == r.searches.Keys + (if c.search.Some? then {c.search.value.id} else {})
      && (forall x :: x in q.prose.cites <==> x in r.prose.cites || x in c.citations) && HasAll(q.tools, r.tools, c.toolCalls)
  {
    ProsePhase(r, c);
    ToolsPhase(ReadProse(r, c), c.toolCalls);
    CitePhase(CallTools(ReadProse(r, c), c.toolCalls), c.citations);
  }

  lemma ChoiceRest(r: Reading, c: Choice, cs: seq<Choice>)
    requires RestSays(r, cs) && ReadChoice(r, c).ending.fault.None?
    ensures RestSays(ReadChoice(r, c), cs + [c])
  {
    var q := ReadChoice(r, c);
    assert (cs + [c])[..|cs|] == cs;
    ChoicePhase(r, c, cs);
    RestKeys(r, c, cs);
    forall id ensures id in q.searches <==> Searched(cs + [c], id) { SearchedMore(cs, c, id); }
    forall x ensures x in q.prose.cites <==> Cited(cs + [c], x) { CitedMore(cs, c, x); }
    forall i ensures i in q.tools <==> FirstOf(Deltas(cs + [c]), i).Some? { FirstMore(Deltas(cs), c.toolCalls, i); }
  }

  ghost predicate ReasoningSays(r: Reading, cs: seq<Choice>) { ThoughtsSay(r.reasoning, Notes(cs)) && RestSays(r, cs) }

  lemma ChoiceNoted(r: Reading, c: Choice, cs: seq<Choice>)
    requires ReasoningSays(r, cs) && ReadChoice(r, c).ending.fault.None?
    ensures ReasoningSays(ReadChoice(r, c), cs + [c])
  {
    assert (cs + [c])[..|cs|] == cs;
    ChoicePhase(r, c, cs);
    ChoiceRest(r, c, cs);
    ReasonsNoted(r, c);
    ThoughtsMore(r.reasoning, Notes(cs), c, Leaves(cs, c));
  }

  lemma ReasonedNamed(c: Choice)
    ensures forall n :: n in Reasoned(c) && n.Item? ==> n.id != ""
  {
  }

  lemma ThoughtsMore(m: Reasoning, ns: seq<Note>, c: Choice, leaves: bool)
    requires ThoughtsSay(m, ns)
    ensures ThoughtsSay(LeftIf(NotedAll(m, Reasoned(c)), leaves), ns + Reasoned(c) + if leaves then [Left] else [])
  {
    ReasonedNamed(c);
    NotedSay(m, ns, Reasoned(c));
    if leaves {
      NoteSays(NotedAll(m, Reasoned(c)), ns + Reasoned(c), Left);
    } else {
      assert ns + Reasoned(c) + [] == ns + Reasoned(c);
    }
  }

  lemma ReasoningKept()
    ensures Kept(ReasoningSays) && EndingApart(ReasoningSays)
  {
    forall r, c, cs | ReasoningSays(r, cs) && ReadChoice(r, c).ending.fault.None?
      ensures ReasoningSays(ReadChoice(r, c), cs + [c])
    {
      ChoiceNoted(r, c, cs);
    }
  }

  /** A stream read without a fault has of reasoning what its choices say of it. */
  lemma ThoughtsAreSaid(events: seq<Event>)
    requires ReadEvents(events).ending.fault.None?
    ensures ThoughtsSay(ReadEvents(events).reasoning, Notes(ChoicesRead(events)))
  {
    ReasoningKept();
    KeptByEvents(ReasoningSays, events);
  }
}
