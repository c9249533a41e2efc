/** The check that a chat history pairs every tool call with one later result. */
module ToolSequence {
  import opened Text

  datatype Message = Message(role: string, callIds: seq<string>, toolCallId: string)

  datatype Step = Call(id: string) | Result(id: string)

  datatype PairingError = EmptyCallId | DuplicateCallId(id: string) | UnknownResult(id: string) | Unanswered(ids: set<string>)

  predicate IsRole(m: Message, role: string) { EqualFold(Trim(m.role), role) }

  function Calls(ids: seq<string>): (r: seq<Step>)
    ensures |r| == |ids|
    ensures forall i :: 0 <= i < |ids| ==> r[i] == Call(Trim(ids[i]))
  {
    seq(|ids|, i requires 0 <= i < |ids| => Call(Trim(ids[i])))
  }

  function StepsOf(m: Message): seq<Step> {
    if IsRole(m, "assistant") then Calls(m.callIds)
    else if IsRole(m, "tool") then [Result(Trim(m.toolCallId))]
    else []
  }

  /** Only assistants call and only tools answer, however their roles are spelt. */
  lemma RolesCount(m: Message)
    ensures Fold(Trim(m.role)) == "assistant" ==> StepsOf(m) == Calls(m.callIds)
    ensures Fold(Trim(m.role)) == "tool" ==> StepsOf(m) == [Result(Trim(m.toolCallId))]
    ensures Fold(Trim(m.role)) != "assistant" && Fold(Trim(m.role)) != "tool" ==> StepsOf(m) == []
  {
    assert Fold("assistant") == "assistant" && Fold("tool") == "tool";
  }

  /** The calls and results of a history in the order they occur. */
  function Steps(messages: seq<Message>): seq<Step> {
    if messages == [] then [] else Steps(messages[..|messages| - 1]) + StepsOf(messages[|messages| - 1])
  }

  /** Call ids are non-empty and distinct; each result answers an earlier call that
      no other result answers. */
  ghost predicate Sound(s: seq<Step>) {
    && (forall i :: 0 <= i < |s| && s[i].Call? ==> s[i].id != "")
    && (forall i, j :: 0 <= i < j < |s| ==> s[i] != s[j])
    && (forall j :: 0 <= j < |s| && s[j].Result? ==> exists i :: 0 <= i < j && s[i] == Call(s[j].id))
  }

  ghost predicate Answered(s: seq<Step>) {
    forall i :: 0 <= i < |s| && s[i].Call? ==> exists j :: i < j < |s| && s[j] == Result(s[i].id)
  }

  ghost predicate WellPaired(s: seq<Step>) { Sound(s) && Answered(s) }

  lemma SoundPrefix(s: seq<Step>, n: nat)
    requires n <= |s|
    ensures Sound(s) ==> Sound(s[..n])
  {
    if Sound(s) {
      forall j | 0 <= j < n && s[j].Result?
        ensures exists i :: 0 <= i < j && s[..n][i] == Call(s[..n][j].id)
      {
        var i :| 0 <= i < j && s[i] == Call(s[j].id);
        assert s[..n][i] == Call(s[..n][j].id);
      }
    }
  }

  lemma SoundCall(s: seq<Step>, id: string)
    requires Sound(s)
    ensures Sound(s + [Call(id)]) <==> id != "" && Call(id) !in s
  {
    var t := s + [Call(id)];
    if id != "" && Call(id) !in s {
      forall j | 0 <= j < |t| && t[j].Result?
        ensures exists i :: 0 <= i < j && t[i] == Call(t[j].id)
      {
        var i :| 0 <= i < j && s[i] == Call(s[j].id);
        assert t[i] == Call(t[j].id);
      }
    }
    if Call(id) in s {
      var i :| 0 <= i < |s| && s[i] == Call(id);
      assert t[i] == t[|s|];
    }
    assert t[|s|] == Call(id);
  }

  lemma SoundResult(s: seq<Step>, id: string)
    requires Sound(s)
    ensures Sound(s + [Result(id)]) <==> Call(id) in s && Result(id) !in s
  {
    var t := s + [Result(id)];
    assert t[|s|] == Result(id);
    if Call(id) in s && Result(id) !in s {
      forall j | 0 <= j < |t| && t[j].Result?
        ensures exists i :: 0 <= i < j && t[i] == Call(t[j].id)
      {
        if j == |s| {
          var i :| 0 <= i < |s| && s[i] == Call(id);
          assert t[i] == Call(t[j].id);
        } else {
          var i :| 0 <= i < j && s[i] == Call(s[j].id);
          assert t[i] == Call(t[j].id);
        }
      }
    }
    if Result(id) in s {
      var i :| 0 <= i < |s| && s[i] == Result(id);
      assert t[i] == t[|s|];
    }
    if Sound(t) {
      var i :| 0 <= i < |s| && t[i] == Call(t[|s|].id);
      assert s[i] == Call(id);
    }
  }

  /** Soundness one step at a time, as the loop checks it. */
  ghost predicate Checked(s: seq<Step>) {
    s != [] ==>
      var before, last := s[..|s| - 1], s[|s| - 1];
      && Checked(before)
      && match last
         case Call(id) => id != "" && last !in before
         case Result(id) => Call(id) in before && last !in before
  }

  lemma {:induction false} CheckedIsSound(s: seq<Step>)
    ensures Checked(s) <==> Sound(s)
  {
    if s != [] {
      var before, last := s[..|s| - 1], s[|s| - 1];
      assert s == before + [last];
      CheckedIsSound(before);
      SoundPrefix(s, |s| - 1);
      if Sound(before) {
        if last.Call? {
          SoundCall(before, last.id);
        } else {
          SoundResult(before, last.id);
        }
      }
    }
  }

  /** The loop's two sets say which calls are open and which are answered. */
  ghost predicate Books(s: seq<Step>, pending: set<string>, completed: set<string>) {
    && Checked(s)
    && (forall id :: id in completed <==> Result(id) in s)
    && (forall id :: id in pending <==> Call(id) in s && Result(id) !in s)
    && (forall id :: Result(id) in s ==> Call(id) in s)
    && Call("") !in s
  }

  lemma BooksCall(s: seq<Step>, pending: set<string>, completed: set<string>, id: string)
    requires Books(s, pending, completed) && id != "" && id !in pending && id !in completed
    ensures Books(s + [Call(id)], pending + {id}, completed)
  {
    assert (s + [Call(id)])[..|s|] == s;
    assert forall x :: x in s + [Call(id)] <==> x in s || x == Call(id);
  }

  lemma BooksResult(s: seq<Step>, pending: set<string>, completed: set<string>, id: string)
    requires Books(s, pending, completed) && id in pending
    ensures Books(s + [Result(id)], pending - {id}, completed + {id})
  {
    assert (s + [Result(id)])[..|s|] == s;
    assert forall x :: x in s + [Result(id)] <==> x in s || x == Result(id);
  }

  lemma AnsweredIff(s: seq<Step>, pending: set<string>, completed: set<string>)
    requires Books(s, pending, completed)
    ensures Answered(s) <==> pending == {}
  {
    CheckedIsSound(s);
    if pending == {} {
      forall i | 0 <= i < |s| && s[i].Call?
        ensures exists j :: i < j < |s| && s[j] == Result(s[i].id)
      {
        assert Call(s[i].id) in s && s[i].id !in pending;
        var j :| 0 <= j < |s| && s[j] == Result(s[i].id);
        var k :| 0 <= k < j && s[k] == Call(s[j].id);
        assert k == i;
      }
    } else {
      var id :| id in pending;
      LeftOpen(s, id);
    }
  }

  lemma LeftOpen(s: seq<Step>, id: string)
    requires Call(id) in s && Result(id) !in s
    ensures !Answered(s)
  {
    var i :| 0 <= i < |s| && s[i] == Call(id);
    assert s[i].Call? && forall j :: i < j < |s| ==> s[j] != Result(s[i].id);
  }

  /** The error names what the first offending step does wrong, or, when every step
      is sound, exactly the calls left without a result. */
  ghost predicate Explains(e: PairingError, s: seq<Step>) {
    match e
    case EmptyCallId => exists n :: 0 <= n < |s| && Sound(s[..n]) && s[n] == Call("")
    case DuplicateCallId(id) => exists n :: 0 <= n < |s| && Sound(s[..n]) && s[n] == Call(id) && id != "" && Call(id) in s[..n]
    case UnknownResult(id) =>
      exists n :: 0 <= n < |s| && Sound(s[..n]) && s[n] == Result(id) && (Call(id) !in s[..n] || Result(id) in s[..n])
    case Unanswered(ids) => Sound(s) && ids != {} && forall id :: id in ids <==> Call(id) in s && Result(id) !in s
  }

  lemma ExplainedRejects(e: PairingError, s: seq<Step>)
    requires Explains(e, s)
    ensures !WellPaired(s)
  {
    match e
    case EmptyCallId =>
      var n :| 0 <= n < |s| && Sound(s[..n]) && s[n] == Call("");
      Offends(s, n);
    case DuplicateCallId(id) =>
      var n :| 0 <= n < |s| && Sound(s[..n]) && s[n] == Call(id) && id != "" && Call(id) in s[..n];
      Offends(s, n);
    case UnknownResult(id) =>
      var n :| 0 <= n < |s| && Sound(s[..n]) && s[n] == Result(id) && (Call(id) !in s[..n] || Result(id) in s[..n]);
      Offends(s, n);
    case Unanswered(ids) =>
      var id :| id in ids;
      LeftOpen(s, id);
  }

  /** When a step offends, no continuation repairs it. */
  lemma Offends(s: seq<Step>, n: nat)
    requires n < |s| && Sound(s[..n])
    requires match s[n] case Call(id) => id == "" || s[n] in s[..n] case Result(id) => Call(id) !in s[..n] || s[n] in s[..n]
    ensures !Sound(s)
  {
    assert s[..n + 1] == s[..n] + [s[n]];
    SoundPrefix(s, n + 1);
    if s[n].Call? {
      SoundCall(s[..n], s[n].id);
    } else {
      SoundResult(s[..n], s[n].id);
    }
  }

  /** The step that follows a checked prefix offends, and the error says how. */
  lemma ExplainedEarly(e: PairingError, s: seq<Step>, before: seq<Step>, t: Step)
    requires before + [t] <= s && Checked(before)
    requires (e == EmptyCallId && t == Call(""))
          || (e.DuplicateCallId? && t == Call(e.id) && e.id != "" && t in before)
          || (e.UnknownResult? && t == Result(e.id) && (Call(e.id) !in before || t in before))
    ensures Explains(e, s)
  {
    CheckedIsSound(before);
    assert s[..|before|] == before && s[|before|] == t;
  }

  lemma {:induction false} StepsPrefix(messages: seq<Message>, k: nat)
    requires k <= |messages|
    ensures Steps(messages[..k]) <= Steps(messages)
  {
    if k == |messages| {
      assert messages[..k] == messages;
    } else {
      assert messages[..|messages| - 1][..k] == messages[..k];
      StepsPrefix(messages[..|messages| - 1], k);
    }
  }

  /** One call of an assistant message. */
  method RecordCall(id: string, pending0: set<string>, completed: set<string>, ghost s: seq<Step>, ghost all: seq<Step>)
    returns (pending: set<string>, error: Option<PairingError>)
    requires Books(s, pending0, completed) && s + [Call(id)] <= all
    ensures error.None? ==> Books(s + [Call(id)], pending, completed)
    ensures error.Some? ==> Explains(error.value, all)
  {
    pending, error := pending0, None;
    if id == "" || id in pending || id in completed {
      error := Some(if id == "" then EmptyCallId else DuplicateCallId(id));
      ExplainedEarly(error.value, all, s, Call(id));
    } else {
      BooksCall(s, pending, completed, id);
      pending := pending + {id};
    }
  }

  lemma OneFurther(s: seq<Step>, calls: seq<Step>, c: nat)
    requires c < |calls|
    ensures s + calls[..c + 1] == s + calls[..c] + [calls[c]] <= s + calls
  {
    assert calls[..c + 1] == calls[..c] + [calls[c]];
  }

  /** The calls of one assistant message. */
  method RecordCalls(ids: seq<string>, pending0: set<string>, completed: set<string>, ghost s: seq<Step>, ghost all: seq<Step>)
    returns (pending: set<string>, error: Option<PairingError>)
    requires Books(s, pending0, completed) && s + Calls(ids) <= all
    ensures error.None? ==> Books(s + Calls(ids), pending, completed)
    ensures error.Some? ==> Explains(error.value, all)
  {
    pending, error := pending0, None;
    var c := 0;
    ghost var calls, done := Calls(ids), s;
    assert s + calls[..0] == s;
    while c < |ids|
      invariant 0 <= c <= |ids| && done == s + calls[..c]
      invariant error.None? && Books(done, pending, completed)
    {
      OneFurther(s, calls, c);
      pending, error := RecordCall(Trim(ids[c]), pending, completed, done, all);
      if error.Some? { return; }
      done := done + [calls[c]];
      c := c + 1;
    }
    assert calls[..c] == calls;
  }

  /** One message: the calls of an assistant, the result of a tool, or neither. */
  method RecordMessage(m: Message, pending0: set<string>, completed0: set<string>, ghost s: seq<Step>, ghost all: seq<Step>)
    returns (pending: set<string>, completed: set<string>, error: Option<PairingError>)
    requires Books(s, pending0, completed0) && s + StepsOf(m) <= all
    ensures error.None? ==> Books(s + StepsOf(m), pending, completed)
    ensures error.Some? ==> Explains(error.value, all)
  {
    pending, completed, error := pending0, completed0, None;
    if IsRole(m, "assistant") {
      pending, error := RecordCalls(m.callIds, pending, completed, s, all);
      return;
    }
    if !IsRole(m, "tool") {
      assert s + StepsOf(m) == s;
      return;
    }
    var id := Trim(m.toolCallId);
    if id == "" || id !in pending {
      error := Some(UnknownResult(id));
      ExplainedEarly(error.value, all, s, Result(id));
      return;
    }
    BooksResult(s, pending, completed, id);
    pending, completed := pending - {id}, completed + {id};
  }

  lemma Verdict(s: seq<Step>, pending: set<string>, completed: set<string>)
    requires Books(s, pending, completed)
    ensures pending == {} <==> WellPaired(s)
    ensures pending != {} ==> Explains(Unanswered(pending), s)
  {
    AnsweredIff(s, pending, completed);
    CheckedIsSound(s);
  }

  lemma NextMessage(messages: seq<Message>, k: nat)
    requires k < |messages|
    ensures Steps(messages[..k + 1]) == Steps(messages[..k]) + StepsOf(messages[k])
    ensures Steps(messages[..k + 1]) <= Steps(messages)
  {
    assert messages[..k + 1][..k] == messages[..k];
    StepsPrefix(messages, k + 1);
  }

  method RecordAll(messages: seq<Message>, ghost all: seq<Step>)
    returns (pending: set<string>, completed: set<string>, error: Option<PairingError>)
    requires all == Steps(messages)
    ensures error.None? ==> Books(all, pending, completed)
    ensures error.Some? ==> Explains(error.value, all)
  {
    pending, completed, error := {}, {}, None;
    var k := 0;
    while k < |messages|
      invariant 0 <= k <= |messages|
      invariant error.None? && Books(Steps(messages[..k]), pending, completed)
    {
      NextMessage(messages, k);
      pending, completed, error := RecordMessage(messages[k], pending, completed, Steps(messages[..k]), all);
      if error.Some? { return; }
      k := k + 1;
    }
    assert messages[..k] == messages;
  }

  /** Accepts exactly the well-paired histories, and explains every rejection. */
  method Validate(messages: seq<Message>) returns (error: Option<PairingError>)
    ensures error.None? <==> WellPaired(Steps(messages))
    ensures error.Some? ==> Explains(error.value, Steps(messages))
  {
    ghost var all := Steps(messages);
    var pending, completed;
    pending, completed, error := RecordAll(messages, all);
    if error.Some? {
      ExplainedRejects(error.value, all);
      return;
    }
    Verdict(all, pending, completed);
    if |pending| > 0 {
      error := Some(Unanswered(pending));
    }
  }
}
