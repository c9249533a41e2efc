/** Keeping a rotating Cline credential: any number of callers of one client read it,
    persist it, mark it clean and refresh it. A step is what happens between two points
    where another caller may run. */
module CredentialRotation {
  import opened Text

  /** A token: what is left of it when it is trimmed, 0 for nothing, and whether there is
      white space to trim. */
  datatype Token = Token(text: nat, padded: bool)

  function Trimmed(t: Token): Token { Token(t.text, false) }

  /** A credential; one without an expiry is tried as it is. */
  datatype Credential = Credential(access: Token, refresh: Token, expires: Option<int>)

  function Resolved(c: Credential): Credential { Credential(Trimmed(c.access), Trimmed(c.refresh), c.expires) }

  const RefreshLead := 300

  predicate AccessValid(c: Credential, now: int) {
    c.access.text != 0 && (c.expires.None? || c.expires.value - now > RefreshLead)
  }

  function Tokens(c: Credential): (Token, Token) { (c.access, c.refresh) }

  // ---- the client's own state ----

  datatype Held = Held(account: Credential, creds: Credential, dirty: bool, expected: Token)

  function Loaded(account: Credential): Held { Held(account, Resolved(account), false, Token(0, false)) }

  function Stored(h: Held, c: Credential, dirty: bool, expected: Token): Held { Held(c, c, dirty, expected) }

  function Marked(h: Held, c: Credential): Held {
    if Tokens(h.creds) == Tokens(c) then h.(dirty := false, expected := Token(0, false)) else h
  }

  class Client {
    var account: Credential
    var creds: Credential
    var credsDirty: bool
    var dirtyExpectedRefresh: Token

    ghost function View(): Held
      reads this
    {
      Held(account, creds, credsDirty, dirtyExpectedRefresh)
    }

    constructor (acc: Credential)
      ensures View() == Loaded(acc)
    {
      account, creds, credsDirty, dirtyExpectedRefresh := acc, Resolved(acc), false, Token(0, false);
    }

    /** The credential is always read off the account, without the white space around its
        tokens. */
    method CurrentState() returns (c: Credential, dirty: bool, expected: Token)
      ensures c == Resolved(View().account) && dirty == View().dirty && expected == View().expected
    {
      c, dirty, expected := Resolved(account), credsDirty, dirtyExpectedRefresh;
    }

    method StoreCredentials(c: Credential, dirty: bool, expected: Token)
      modifies this
      ensures View() == Stored(old(View()), c, dirty, expected)
    {
      creds := c;
      credsDirty := dirty;
      dirtyExpectedRefresh := expected;
      account := Credential(c.access, c.refresh, c.expires);
    }

    method MarkCredentialsClean(c: Credential)
      modifies this
      ensures View() == Marked(old(View()), c)
    {
      if creds.access == c.access && creds.refresh == c.refresh {
        credsDirty := false;
        dirtyExpectedRefresh := Token(0, false);
      }
    }
  }

  // ---- the callers ----

  /** What a caller goes on with after it has persisted a credential. */
  datatype Next = ThenCheck | ThenDecide(previous: Credential) | ThenReturn

  datatype Caller =
    | Idle
    | Persisting(creds: Credential, next: Next)                // writing a credential to the store
    | Marking(creds: Credential, next: Next)                   // the store has accepted it
    | Checking(creds: Credential)                              // may it be used as it is?
    | Waiting(previous: Credential)                            // for the refresh lock
    | Locked(previous: Credential)                             // has it
    | Deciding(previous: Credential, current: Credential)      // has another caller refreshed meanwhile?
    | Refreshing(previous: Credential)                         // has asked the upstream

  predicate HoldsLock(c: Caller) {
    || c.Locked? || c.Deciding? || c.Refreshing?
    || ((c.Persisting? || c.Marking?) && !c.next.ThenCheck?)
  }

  /** `accepted` are the token pairs persisting succeeded for, `known` all credentials that
      were ever current, and `renewed` the access tokens that were successfully renewed, in
      order. `loaded` is the credential at the start, and `issued` are the answers since
      that issued one. */
  datatype State = State(held: Held, lock: Option<nat>, callers: map<nat, Caller>,
    accepted: set<(Token, Token)>, known: set<Credential>, renewed: seq<Token>,
    loaded: Credential, issued: seq<Grant>)

  function Start(account: Credential): State {
    State(Loaded(account), None, map[], {}, {Resolved(account)}, [], Resolved(account), [])
  }

  function At(s: State, p: nat): Caller { if p in s.callers then s.callers[p] else Idle }

  function Current(s: State): Credential { Resolved(s.held.account) }

  /** What the upstream answers with. */
  datatype Answer = Refused | Issued(access: Token, refresh: Token, expires: Option<int>)

  type Grant = a: Answer | a.Issued? witness Issued(Token(0, false), Token(0, false), None)

  datatype Action =
    | Ensure(p: nat)                          // a caller wants a usable token
    | Force(p: nat, rejected: Credential)     // a caller's credential was rejected upstream
    | PersistDone(p: nat, accepts: bool)
    | MarkClean(p: nat)
    | Check(p: nat, now: int)
    | Acquire(p: nat)
    | Reread(p: nat)
    | Decide(p: nat, now: int)
    | Answered(p: nat, answer: Answer)

  /** Was this credential ever current? Access tokens are handed out trimmed. */
  predicate Known(known: set<Credential>, c: Credential) { !c.access.padded && Resolved(c) in known }

  predicate Enabled(s: State, a: Action) {
    var c := At(s, a.p);
    match a
    case Ensure(_) => c.Idle?
    // What a caller saw rejected is a credential it was given.
    case Force(_, rejected) => c.Idle? && Known(s.known, rejected)
    case PersistDone(_, _) => c.Persisting?
    case MarkClean(_) => c.Marking?
    case Check(_, _) => c.Checking?
    case Acquire(_) => c.Waiting? && s.lock.None?
    case Reread(_) => c.Locked?
    case Decide(_, _) => c.Deciding?
    // An answer without an access token counts as refused.
    case Answered(_, answer) => c.Refreshing? && (answer.Issued? ==> answer.access.text != 0)
  }

  function Go(s: State, p: nat, c: Caller): State { s.(callers := s.callers[p := c]) }

  function Return(s: State, p: nat): State {
    Go(if HoldsLock(At(s, p)) then s.(lock := None) else s, p, Idle)
  }

  /** The credential that results from an answer. */
  function Merged(previous: Credential, access: Token, refresh: Token, expires: Option<int>): Credential {
    Credential(Trimmed(access), if refresh.text != 0 then refresh else Trimmed(previous.refresh),
               if expires.None? then previous.expires else expires)
  }

  function Step(s: State, a: Action): State
    requires Enabled(s, a)
  {
    var p, c := a.p, At(s, a.p);
    match a
    case Ensure(_) => Go(s, p, if s.held.dirty then Persisting(Current(s), ThenCheck) else Checking(Current(s)))
    case Force(_, rejected) => if rejected.refresh.text == 0 then s else Go(s, p, Waiting(rejected))
    case PersistDone(_, accepts) =>
      if accepts then Go(s.(accepted := s.accepted + {Tokens(c.creds)}), p, Marking(c.creds, c.next)) else Return(s, p)
    case MarkClean(_) =>
      var s' := s.(held := Marked(s.held, c.creds));
      (match c.next
       case ThenCheck => Go(s', p, Checking(c.creds))
       case ThenDecide(previous) => Go(s', p, Deciding(previous, c.creds))
       case ThenReturn => Return(s', p))
    case Check(_, now) =>
      if AccessValid(c.creds, now) || c.creds.refresh.text == 0 then Return(s, p) else Go(s, p, Waiting(c.creds))
    case Acquire(_) => Go(s.(lock := Some(p)), p, Locked(c.previous))
    case Reread(_) =>
      Go(s, p, if s.held.dirty then Persisting(Current(s), ThenDecide(c.previous)) else Deciding(c.previous, Current(s)))
    case Decide(_, now) =>
      if AccessValid(c.current, now) && c.current.access != c.previous.access then Return(s, p) else Go(s, p, Refreshing(c.previous))
    case Answered(_, Refused) => Return(s, p)
    case Answered(_, Issued(access, refresh, expires)) =>
      var merged := Merged(c.previous, access, refresh, expires);
      Go(s.(held := Stored(s.held, merged, true, c.previous.refresh), known := s.known + {Resolved(merged)},
            renewed := s.renewed + [c.previous.access], issued := s.issued + [a.answer]),
         p, Persisting(merged, ThenReturn))
  }

  /** The step that asks the upstream for a new credential. */
  predicate AsksUpstream(s: State, a: Action)
    requires Enabled(s, a)
  {
    a.Decide? && At(Step(s, a), a.p).Refreshing?
  }

  // ---- runs ----

  predicate Possible(s: State, run: seq<Action>)
    decreases run
  {
    run == [] || (Enabled(s, run[0]) && Possible(Step(s, run[0]), run[1..]))
  }

  function After(s: State, run: seq<Action>): State
    requires Possible(s, run)
    decreases run
  {
    if run == [] then s else After(Step(s, run[0]), run[1..])
  }

  /** Only the caller that the lock names is past the lock. */
  ghost predicate Exclusive(s: State) {
    forall p: nat :: HoldsLock(At(s, p)) <==> s.lock == Some(p)
  }

  lemma StepExclusive(s: State, a: Action)
    requires Enabled(s, a) && Exclusive(s)
    ensures Exclusive(Step(s, a))
  {
    forall p: nat | p != a.p
      ensures At(Step(s, a), p) == At(s, p)
    {
    }
    assert HoldsLock(At(s, a.p)) <==> s.lock == Some(a.p);
  }

  /** A clear flag means that persisting succeeded for exactly the pair that is held, or
      that it is the pair that was loaded. */
  ghost predicate CleanIsSafe(s: State, account: Credential) {
    && (!s.held.dirty ==> Tokens(s.held.creds) in s.accepted || s.held.creds == Resolved(account))
    && (forall p: nat :: At(s, p).Marking? ==> Tokens(At(s, p).creds) in s.accepted)
  }

  lemma StepSafe(s: State, a: Action, account: Credential)
    requires Enabled(s, a) && CleanIsSafe(s, account)
    ensures CleanIsSafe(Step(s, a), account)
  {
    forall p: nat | p != a.p
      ensures At(Step(s, a), p) == At(s, p)
    {
    }
  }

  /** In every run. */
  lemma {:induction false} AlwaysSafe(s: State, run: seq<Action>, account: Credential)
    requires Possible(s, run) && CleanIsSafe(s, account)
    ensures CleanIsSafe(After(s, run), account)
    decreases run
  {
    if run != [] {
      StepSafe(s, run[0], account);
      AlwaysSafe(Step(s, run[0]), run[1..], account);
    }
  }

  // ---- no refresh while something is unpersisted ----

  predicate Writing(c: Caller) { c.Persisting? || c.Marking? }

  /** What is read back is what is held without the white space around it. A caller past
      the lock works on what it read back, and from the moment it decides the flag is set
      only because of white space. */
  ghost predicate Settled(s: State) {
    && Exclusive(s)
    && Tokens(Current(s)) == Tokens(Resolved(s.held.creds)) && !s.held.creds.access.padded
    && (forall p: nat :: SettledCaller(s.held, At(s, p)))
  }

  ghost predicate SettledCaller(h: Held, c: Caller) {
    && (Writing(c) && !c.next.ThenReturn? ==> !c.creds.refresh.padded)
    && (Writing(c) && c.next.ThenDecide? ==> Tokens(c.creds) == Tokens(Resolved(h.creds)))
    && (Writing(c) && c.next.ThenReturn? ==> Tokens(c.creds) == Tokens(h.creds))
    && (c.Deciding? || c.Refreshing? ==> h.dirty ==> h.creds.refresh.padded)
  }

  lemma StepSettled(s: State, a: Action)
    requires Enabled(s, a) && Settled(s)
    ensures Settled(Step(s, a))
  {
    var s' := Step(s, a);
    StepExclusive(s, a);
    assert SettledCaller(s.held, At(s, a.p));
    forall p: nat
      ensures SettledCaller(s'.held, At(s', p))
    {
      assert SettledCaller(s.held, At(s, p));
      assert HoldsLock(At(s, p)) <==> s.lock == Some(p);
      assert HoldsLock(At(s, a.p)) <==> s.lock == Some(a.p);
      assert p != a.p ==> At(s', p) == At(s, p);
    }
  }

  lemma {:induction false} AlwaysSettled(s: State, run: seq<Action>)
    requires Possible(s, run) && Settled(s)
    ensures Settled(After(s, run))
    decreases run
  {
    if run != [] {
      StepSettled(s, run[0]);
      AlwaysSettled(Step(s, run[0]), run[1..]);
    }
  }

  lemma StartSettled(account: Credential)
    ensures Settled(Start(account)) && CleanIsSafe(Start(account), account)
  {
  }

  /** In every run the upstream is asked with the flag set only if there is white space
      around the refresh token that is held. */
  lemma AskedClean(account: Credential, run: seq<Action>, a: Action)
    requires Possible(Start(account), run)
    requires Enabled(After(Start(account), run), a) && AsksUpstream(After(Start(account), run), a)
    ensures var h := After(Start(account), run).held; h.dirty ==> h.creds.refresh.padded
  {
    StartSettled(account);
    AlwaysSettled(Start(account), run);
    assert SettledCaller(After(Start(account), run).held, At(After(Start(account), run), a.p));
  }

  /** The upstream issues its refresh tokens without white space around them. */
  predicate Tidy(a: Action) { a.Answered? && a.answer.Issued? ==> !a.answer.refresh.padded }

  lemma {:induction false} AlwaysTidy(s: State, run: seq<Action>)
    requires Possible(s, run) && !s.held.creds.refresh.padded && forall b :: b in run ==> Tidy(b)
    ensures !After(s, run).held.creds.refresh.padded
    decreases run
  {
    if run != [] {
      assert run[0] in run && forall b :: b in run[1..] ==> b in run;
      AlwaysTidy(Step(s, run[0]), run[1..]);
    }
  }

  /** As long as issued refresh tokens need no trimming, the upstream is only asked when
      the flag is clear. */
  lemma TidyAskedClean(account: Credential, run: seq<Action>, a: Action)
    requires Possible(Start(account), run) && forall b :: b in run ==> Tidy(b)
    requires Enabled(After(Start(account), run), a) && AsksUpstream(After(Start(account), run), a)
    ensures !After(Start(account), run).held.dirty
  {
    AlwaysTidy(Start(account), run);
    AskedClean(account, run, a);
  }

  /** In every run, when a caller marks what it has read back and persisted past the lock,
      the flag clears exactly if the refresh token that is held needs no trimming. */
  lemma ClearsExactly(account: Credential, run: seq<Action>, p: nat)
    requires Possible(Start(account), run)
    requires At(After(Start(account), run), p).Marking? && At(After(Start(account), run), p).next.ThenDecide?
    ensures var s := After(Start(account), run);
      Step(s, MarkClean(p)).held.dirty <==> s.held.dirty && s.held.creds.refresh.padded
  {
    StartSettled(account);
    AlwaysSettled(Start(account), run);
    assert SettledCaller(After(Start(account), run).held, At(After(Start(account), run), p));
  }

  /** One more step at the end of a run. */
  lemma {:induction false} Then(s: State, run: seq<Action>, a: Action) returns (longer: seq<Action>)
    requires Possible(s, run) && Enabled(After(s, run), a)
    ensures longer == run + [a] && Possible(s, longer) && After(s, longer) == Step(After(s, run), a)
    decreases run
  {
    longer := run + [a];
    if run == [] {
      assert longer[1..] == [];
    } else {
      var rest := Then(Step(s, run[0]), run[1..], a);
      assert longer[1..] == rest;
    }
  }

  const Old := Credential(Token(1, false), Token(2, false), Some(0))
  const New := Credential(Token(3, false), Token(4, true), Some(100))

  /** A renewal that is not persisted at once. */
  lemma UnpersistedRenewal() returns (run: seq<Action>)
    ensures Possible(Start(Old), run)
    ensures var s := After(Start(Old), run); s.held == Held(New, New, true, Old.refresh) && s.lock == None && forall p: nat :: At(s, p) == Idle
  {
    var s := Start(Old);
    run := Then(s, [], Ensure(0));
    run := Then(s, run, Check(0, 0));
    run := Then(s, run, Acquire(0));
    run := Then(s, run, Reread(0));
    run := Then(s, run, Decide(0, 0));
    run := Then(s, run, Answered(0, Issued(New.access, New.refresh, New.expires)));
    run := Then(s, run, PersistDone(0, false));
  }

  /** The flag is set, what is held has white space around it, and nobody is writing it. */
  ghost predicate Stuck(s: State) {
    s.held.dirty && s.held.creds.refresh.padded && forall p: nat :: Writing(At(s, p)) ==> !At(s, p).creds.refresh.padded
  }

  /** Nothing clears the flag then but another renewal, however often what is read back is
      persisted. */
  lemma {:induction false} NeverClears(s: State, run: seq<Action>)
    requires Possible(s, run) && Stuck(s) && forall a :: a in run ==> !(a.Answered? && a.answer.Issued?)
    ensures Stuck(After(s, run))
    decreases run
  {
    if run != [] {
      assert run[0] in run && forall b :: b in run[1..] ==> b in run;
      StuckStays(s, run[0]);
      NeverClears(Step(s, run[0]), run[1..]);
    }
  }

  lemma StuckStays(s: State, a: Action)
    requires Enabled(s, a) && Stuck(s) && !(a.Answered? && a.answer.Issued?)
    ensures Stuck(Step(s, a))
  {
    assert Writing(At(s, a.p)) ==> !At(s, a.p).creds.refresh.padded;
    forall p: nat | p != a.p
      ensures At(Step(s, a), p) == At(s, p)
    {
    }
  }

  lemma ThenStuck(s: State, run: seq<Action>, a: Action) returns (longer: seq<Action>)
    requires Possible(s, run) && Enabled(After(s, run), a) && Stuck(After(s, run)) && !(a.Answered? && a.answer.Issued?)
    ensures longer == run + [a] && Possible(s, longer) && After(s, longer) == Step(After(s, run), a) && Stuck(After(s, longer))
  {
    longer := Then(s, run, a);
    StuckStays(After(s, run), a);
  }

  lemma PersistedInVain() returns (run: seq<Action>)
    ensures Possible(Start(Old), run) && Stuck(After(Start(Old), run))
    ensures var s := After(Start(Old), run); s.held == Held(New, New, true, Old.refresh) && s.lock == None && At(s, 0) == Checking(Resolved(New))
  {
    var s := Start(Old);
    run := UnpersistedRenewal();
    run := ThenStuck(s, run, Ensure(0));
    run := ThenStuck(s, run, PersistDone(0, true));
    run := ThenStuck(s, run, MarkClean(0));
  }

  /** When an issued refresh token has white space around it and is not persisted at once,
      the flag is stuck, and the upstream is asked with it set. */
  lemma PaddedStaysDirty() returns (run: seq<Action>, a: Action)
    ensures Possible(Start(Old), run) && Enabled(After(Start(Old), run), a)
    ensures AsksUpstream(After(Start(Old), run), a) && Stuck(After(Start(Old), run))
  {
    var s := Start(Old);
    run := PersistedInVain();
    run := ThenStuck(s, run, Check(0, 0));
    run := ThenStuck(s, run, Acquire(0));
    run := ThenStuck(s, run, Reread(0));
    run := ThenStuck(s, run, PersistDone(0, true));
    run := ThenStuck(s, run, MarkClean(0));
    a := Decide(0, 0);
  }

  // ---- which credential is renewed ----

  /** The upstream never issues an access token twice. */
  predicate Fresh(s: State, a: Action) {
    a.Answered? && a.answer.Issued? ==> forall x :: x in s.known ==> x.access != Trimmed(a.answer.access)
  }

  /** Nor a refresh token, and it issues one every time. */
  predicate Rotates(s: State, a: Action) {
    a.Answered? && a.answer.Issued? ==> a.answer.refresh.text != 0 && forall x :: x in s.known ==> x.refresh != Trimmed(a.answer.refresh)
  }

  /** The access token that was issued last, or was loaded. */
  function LastAccess(s: State): Token {
    if s.issued == [] then s.loaded.access else Trimmed(s.issued[|s.issued| - 1].access)
  }

  /** The last refresh token that an answer names, or the one that was loaded. */
  function NamedRefresh(loaded: Token, issued: seq<Grant>): Token
  {
    if issued == [] then loaded
    else
      var last := issued[|issued| - 1];
      if last.refresh.text != 0 then Trimmed(last.refresh) else NamedRefresh(loaded, issued[..|issued| - 1])
  }

  /** The last expiry that an answer names, or the one that was loaded. */
  function NamedExpiry(loaded: Option<int>, issued: seq<Grant>): Option<int>
  {
    if issued == [] then loaded
    else
      var last := issued[|issued| - 1];
      if last.expires.Some? then last.expires else NamedExpiry(loaded, issued[..|issued| - 1])
  }

  /** What the answers say the credential is. */
  function Announced(s: State): Credential {
    Credential(LastAccess(s), NamedRefresh(s.loaded.refresh, s.issued), NamedExpiry(s.loaded.expires, s.issued))
  }

  predicate Expiring(expires: Option<int>, now: int) { expires.Some? && expires.value - now <= RefreshLead }

  /** What another caller has renewed meanwhile is, by the answers' own expiries, not about
      to expire when it is looked at. */
  predicate Lasts(s: State, a: Action) {
    var c := At(s, a.p);
    a.Decide? && c.Deciding? && LastAccess(s) != c.previous.access ==> !Expiring(Announced(s).expires, a.now)
  }

  predicate EveryStep(s: State, run: seq<Action>, holds: (State, Action) -> bool)
    requires Possible(s, run)
    decreases run
  {
    run == [] || (holds(s, run[0]) && EveryStep(Step(s, run[0]), run[1..], holds))
  }

  /** The credentials a caller is working with were all current once. */
  ghost predicate CallerKnown(known: set<Credential>, c: Caller) {
    match c
    case Idle => true
    case Persisting(creds, next) => Known(known, creds) && (next.ThenDecide? ==> Known(known, next.previous))
    case Marking(creds, next) => Known(known, creds) && (next.ThenDecide? ==> Known(known, next.previous))
    case Checking(creds) => Known(known, creds)
    case Waiting(previous) => Known(known, previous)
    case Locked(previous) => Known(known, previous)
    case Deciding(previous, current) => Known(known, previous) && Known(known, current)
    case Refreshing(previous) => Known(known, previous)
  }

  /** What the caller past the lock takes for the current credential is the current one. */
  ghost predicate UpToDate(s: State, c: Caller) {
    && ((c.Persisting? || c.Marking?) && c.next.ThenDecide? ==> Resolved(c.creds) == Current(s))
    && (c.Deciding? ==> Resolved(c.current) == Current(s) && !c.current.access.padded)
  }

  /** One credential goes with each access token that ever was current. */
  ghost predicate OnePairEach(s: State) {
    && Current(s) in s.known
    && (forall x, y :: x in s.known && y in s.known && x.access == y.access ==> x == y)
    && (forall x :: x in s.known ==> !x.access.padded)
  }

  ghost predicate Familiar(s: State) {
    && Exclusive(s) && OnePairEach(s)
    && (forall p: nat :: CallerKnown(s.known, At(s, p)) && UpToDate(s, At(s, p)))
  }

  lemma StepPairs(s: State, a: Action)
    requires Enabled(s, a) && Fresh(s, a) && Familiar(s)
    ensures OnePairEach(Step(s, a))
  {
    assert CallerKnown(s.known, At(s, a.p)) && UpToDate(s, At(s, a.p));
    var s' := Step(s, a);
    if s'.known == s.known && !a.Answered? {
      assert Current(s') == Current(s);
    }
  }

  lemma ActorFamiliar(s: State, a: Action)
    requires Enabled(s, a) && Familiar(s)
    ensures CallerKnown(Step(s, a).known, At(Step(s, a), a.p)) && UpToDate(Step(s, a), At(Step(s, a), a.p))
  {
    assert CallerKnown(s.known, At(s, a.p)) && UpToDate(s, At(s, a.p));
  }

  lemma OthersFamiliar(s: State, a: Action, p: nat)
    requires Enabled(s, a) && Familiar(s) && p != a.p
    ensures CallerKnown(Step(s, a).known, At(Step(s, a), p)) && UpToDate(Step(s, a), At(Step(s, a), p))
  {
    var s' := Step(s, a);
    assert s.known <= s'.known;
    assert At(s', p) == At(s, p) && CallerKnown(s.known, At(s, p)) && UpToDate(s, At(s, p));
    assert HoldsLock(At(s, p)) <==> s.lock == Some(p);
    assert HoldsLock(At(s, a.p)) <==> s.lock == Some(a.p);
  }

  lemma StepFamiliar(s: State, a: Action)
    requires Enabled(s, a) && Fresh(s, a) && Familiar(s)
    ensures Familiar(Step(s, a))
  {
    StepExclusive(s, a);
    StepPairs(s, a);
    forall p: nat
      ensures CallerKnown(Step(s, a).known, At(Step(s, a), p)) && UpToDate(Step(s, a), At(Step(s, a), p))
    {
      if p == a.p { ActorFamiliar(s, a); } else { OthersFamiliar(s, a, p); }
    }
  }

  lemma {:induction false} AlwaysFamiliar(s: State, run: seq<Action>)
    requires Possible(s, run) && EveryStep(s, run, Fresh) && Familiar(s)
    ensures Familiar(After(s, run))
    decreases run
  {
    if run != [] {
      StepFamiliar(s, run[0]);
      AlwaysFamiliar(Step(s, run[0]), run[1..]);
    }
  }

  // ---- when the upstream is asked with the flag set ----

  /** The store has accepted only pairs that were current. A pair that has white space in
      it is accepted only from the caller that renewed it, which then clears the flag. */
  ghost predicate Accounted(s: State) { AcceptedKnown(s) && AcceptedClears(s) }

  ghost predicate AcceptedKnown(s: State) { forall x :: x in s.accepted ==> exists c :: c in s.known && c.access == x.0 }

  ghost predicate AcceptedClears(s: State) {
    s.held.dirty && s.held.creds.refresh.padded && Tokens(s.held.creds) in s.accepted ==>
      exists p: nat :: At(s, p).Marking? && At(s, p).next.ThenReturn?
  }

  lemma StepAcceptedKnown(s: State, a: Action)
    requires Enabled(s, a) && Familiar(s) && AcceptedKnown(s)
    ensures AcceptedKnown(Step(s, a))
  {
    assert CallerKnown(s.known, At(s, a.p));
    assert forall c :: c in s.known ==> c in Step(s, a).known;
    assert a.PersistDone? ==> Resolved(At(s, a.p).creds) in s.known;
  }

  lemma StepAcceptedClears(s: State, a: Action)
    requires Enabled(s, a) && Fresh(s, a) && Settled(s) && Accounted(s)
    ensures AcceptedClears(Step(s, a))
  {
    var s' := Step(s, a);
    assert SettledCaller(s.held, At(s, a.p));
    assert forall p: nat :: p != a.p ==> At(s', p) == At(s, p);
    if s'.held.dirty && s'.held.creds.refresh.padded && Tokens(s'.held.creds) in s'.accepted {
      if !(a.PersistDone? && At(s', a.p).Marking? && At(s', a.p).next.ThenReturn?) {
        assert Tokens(s.held.creds) in s.accepted;
        var p: nat :| At(s, p).Marking? && At(s, p).next.ThenReturn?;
        assert SettledCaller(s.held, At(s, p));
        assert At(s', p).Marking?;
      }
    }
  }

  lemma StepAccounted(s: State, a: Action)
    requires Enabled(s, a) && Fresh(s, a) && Familiar(s) && Settled(s) && Accounted(s)
    ensures Accounted(Step(s, a))
  {
    StepAcceptedKnown(s, a);
    StepAcceptedClears(s, a);
  }

  lemma {:induction false} AlwaysAccounted(s: State, run: seq<Action>)
    requires Possible(s, run) && EveryStep(s, run, Fresh) && Familiar(s) && Settled(s) && Accounted(s)
    ensures Settled(After(s, run)) && Accounted(After(s, run))
    decreases run
  {
    if run != [] {
      StepFamiliar(s, run[0]);
      StepSettled(s, run[0]);
      StepAccounted(s, run[0]);
      AlwaysAccounted(Step(s, run[0]), run[1..]);
    }
  }

  /** In every run in which access tokens are not issued twice, the upstream is asked with
      the flag set exactly if there is white space around the refresh token that is held
      and the store has not accepted it so. */
  lemma AskedCleanExactly(account: Credential, run: seq<Action>, a: Action)
    requires Possible(Start(account), run) && EveryStep(Start(account), run, Fresh)
    requires Enabled(After(Start(account), run), a) && AsksUpstream(After(Start(account), run), a)
    ensures var s := After(Start(account), run);
      s.held.dirty <==> s.held.creds.refresh.padded && Tokens(s.held.creds) !in s.accepted
  {
    var s := After(Start(account), run);
    StartSettled(account);
    StartOrderly(account);
    AlwaysSafe(Start(account), run, account);
    AlwaysAccounted(Start(account), run);
    assert SettledCaller(s.held, At(s, a.p));
    assert HoldsLock(At(s, a.p));
    assert forall p: nat :: HoldsLock(At(s, p)) ==> p == a.p;
  }

  /** What the upstream is asked with. */
  function Sent(s: State, a: Action): Token
    requires Enabled(s, a) && AsksUpstream(s, a)
  {
    Trimmed(At(s, a.p).previous.refresh)
  }

  ghost predicate RefreshDistinct(s: State) {
    forall x, y :: x in s.known && y in s.known && x.refresh == y.refresh ==> x == y
  }

  lemma {:induction false} AlwaysDistinct(s: State, run: seq<Action>)
    requires Possible(s, run) && EveryStep(s, run, Rotates) && RefreshDistinct(s)
    ensures RefreshDistinct(After(s, run))
    decreases run
  {
    if run != [] { AlwaysDistinct(Step(s, run[0]), run[1..]); }
  }

  /** A caller asks with the refresh token that goes with its own access token: with the
      current one exactly if nobody has renewed meanwhile or the renewal kept the refresh
      token, which it never does where refresh tokens rotate. */
  lemma AskedWithCurrentExactly(account: Credential, run: seq<Action>, a: Action)
    requires Possible(Start(account), run) && EveryStep(Start(account), run, Fresh)
    requires Enabled(After(Start(account), run), a) && AsksUpstream(After(Start(account), run), a)
    ensures var s := After(Start(account), run); var c := At(s, a.p);
      && (Sent(s, a) == Current(s).refresh <==>
           c.previous.access == c.current.access || Trimmed(c.previous.refresh) == Trimmed(c.current.refresh))
      && (EveryStep(Start(account), run, Rotates) ==>
           (Sent(s, a) == Current(s).refresh <==> c.previous.access == c.current.access))
  {
    var s := After(Start(account), run);
    StartOrderly(account);
    AlwaysFamiliar(Start(account), run);
    if EveryStep(Start(account), run, Rotates) { AlwaysDistinct(Start(account), run); }
    assert CallerKnown(s.known, At(s, a.p)) && UpToDate(s, At(s, a.p));
  }

  // ---- one renewal for each credential ----

  /** The current credential is what the answers say. An access token that was issued is
      not empty. */
  ghost predicate AsAnnounced(s: State) {
    && Current(s) == Announced(s)
    && (if s.issued == [] then s.known == {s.loaded} else LastAccess(s).text != 0)
  }

  /** The current credential has not been renewed yet, what is being renewed is the current
      one, and no access token was renewed twice. */
  ghost predicate RenewedOnce(s: State) {
    && Current(s).access !in s.renewed
    && (forall i :: 0 <= i < |s.renewed| ==> exists x :: x in s.known && x.access == s.renewed[i])
    && (forall i, j :: 0 <= i < j < |s.renewed| ==> s.renewed[i] != s.renewed[j])
    && (forall p: nat :: At(s, p).Refreshing? ==> At(s, p).previous.access == Current(s).access)
  }

  ghost predicate Orderly(s: State) { Familiar(s) && RenewedOnce(s) && AsAnnounced(s) }

  lemma RenewingCurrent(s: State, a: Action, p: nat)
    requires Enabled(s, a) && Lasts(s, a) && Orderly(s) && At(Step(s, a), p).Refreshing?
    ensures At(Step(s, a), p).previous.access == Current(Step(s, a)).access
  {
    assert CallerKnown(s.known, At(s, a.p)) && UpToDate(s, At(s, a.p));
    assert HoldsLock(At(s, a.p)) <==> s.lock == Some(a.p);
    if p != a.p {
      assert At(Step(s, a), p) == At(s, p);
      assert HoldsLock(At(s, p)) <==> s.lock == Some(p);
    }
  }

  lemma StepRenewed(s: State, a: Action)
    requires Enabled(s, a) && Fresh(s, a) && Lasts(s, a) && Orderly(s)
    ensures RenewedOnce(Step(s, a))
  {
    var s' := Step(s, a);
    forall p: nat | At(s', p).Refreshing?
      ensures At(s', p).previous.access == Current(s').access
    {
      RenewingCurrent(s, a, p);
    }
    if s'.renewed == s.renewed {
      assert Current(s') == Current(s);
    } else {
      assert forall x :: x in s.known ==> x in s'.known;
      assert At(s, a.p).previous.access == Current(s).access && Current(s) in s'.known;
    }
  }

  /** What is renewed is the current credential, so what an answer leaves out stays. */
  lemma StepAnnounced(s: State, a: Action)
    requires Enabled(s, a) && Fresh(s, a) && Orderly(s)
    ensures AsAnnounced(Step(s, a))
  {
    var s', c := Step(s, a), At(s, a.p);
    assert CallerKnown(s.known, c);
    if a.Answered? && a.answer.Issued? {
      assert s'.issued[..|s'.issued| - 1] == s.issued;
      assert Resolved(c.previous) == Current(s);
    }
  }

  lemma {:induction false} AlwaysOrderly(s: State, run: seq<Action>)
    requires Possible(s, run) && EveryStep(s, run, Fresh) && EveryStep(s, run, Lasts) && Orderly(s)
    ensures Orderly(After(s, run))
    decreases run
  {
    if run != [] {
      StepFamiliar(s, run[0]);
      StepRenewed(s, run[0]);
      StepAnnounced(s, run[0]);
      AlwaysOrderly(Step(s, run[0]), run[1..]);
    }
  }

  lemma StartOrderly(account: Credential)
    ensures Orderly(Start(account)) && RefreshDistinct(Start(account))
  {
  }

  /** However many callers find a credential stale, however often credentials expire and
      are renewed: each is renewed once, as long as what a caller finds renewed by another
      is still valid. */
  lemma OneRenewalEach(account: Credential, run: seq<Action>)
    requires Possible(Start(account), run) && EveryStep(Start(account), run, Fresh) && EveryStep(Start(account), run, Lasts)
    ensures var renewed := After(Start(account), run).renewed;
      forall i, j :: 0 <= i < j < |renewed| ==> renewed[i] != renewed[j]
  {
    StartOrderly(account);
    AlwaysOrderly(Start(account), run);
  }

  // ---- what the answers say ----

  /** The answers of a run that issued a credential. */
  function Grants(run: seq<Action>): seq<Grant> {
    if run == [] then [] else GrantIn(run[0]) + Grants(run[1..])
  }

  function GrantIn(a: Action): seq<Grant> { if a.Answered? && a.answer.Issued? then [a.answer] else [] }

  lemma StepIssued(s: State, a: Action)
    requires Enabled(s, a)
    ensures Step(s, a).issued == s.issued + GrantIn(a) && Step(s, a).loaded == s.loaded
  {
  }

  lemma Joined(a: seq<Grant>, b: seq<Grant>, c: seq<Grant>)
    ensures a + b + c == a + (b + c)
  {
  }

  lemma {:induction false} IssuedInRun(s: State, run: seq<Action>)
    requires Possible(s, run)
    ensures After(s, run).issued == s.issued + Grants(run) && After(s, run).loaded == s.loaded
    decreases run
  {
    if run == [] {
      assert s.issued + [] == s.issued;
    } else {
      StepIssued(s, run[0]);
      IssuedInRun(Step(s, run[0]), run[1..]);
      Joined(s.issued, GrantIn(run[0]), Grants(run[1..]));
    }
  }

  /** In every run the access token is the one issued last. */
  lemma {:induction false} AccessIsLast(s: State, run: seq<Action>)
    requires Possible(s, run) && Current(s).access == LastAccess(s)
    ensures Current(After(s, run)).access == LastAccess(After(s, run))
    decreases run
  {
    if run != [] { AccessIsLast(Step(s, run[0]), run[1..]); }
  }

  /** In every run in which what a caller finds renewed by another is not about to expire,
      the credential is the one that the answers name: the access token issued last, and the
      refresh token and the expiry that were named last. */
  lemma CredentialAnnounced(account: Credential, run: seq<Action>)
    requires Possible(Start(account), run) && EveryStep(Start(account), run, Fresh) && EveryStep(Start(account), run, Lasts)
    ensures var s, grants, loaded := After(Start(account), run), Grants(run), Resolved(account);
      Current(s) == Credential(if grants == [] then loaded.access else Trimmed(grants[|grants| - 1].access),
                               NamedRefresh(loaded.refresh, grants), NamedExpiry(loaded.expires, grants))
  {
    StartOrderly(account);
    AlwaysOrderly(Start(account), run);
    IssuedInRun(Start(account), run);
    assert Start(account).issued + Grants(run) == Grants(run);
  }

  /** Whatever the run, an answer leaves the credential as announced exactly if it names an
      expiry and a refresh token, or those of the caller's own credential are the current
      ones. */
  lemma AnnouncedExactly(s: State, a: Action)
    requires Enabled(s, a) && a.Answered? && a.answer.Issued? && Current(s) == Announced(s)
    ensures var previous := At(s, a.p).previous;
      Current(Step(s, a)) == Announced(Step(s, a)) <==>
        && (a.answer.expires.Some? || previous.expires == Current(s).expires)
        && (a.answer.refresh.text != 0 || Trimmed(previous.refresh) == Current(s).refresh)
  {
    assert Step(s, a).issued[..|Step(s, a).issued| - 1] == s.issued;
  }

  /** A caller that checks the current credential goes on to renew it exactly if there is a
      refresh token, and no access token or one that by the answers' own expiries is about
      to expire; otherwise it uses it. */
  lemma CheckedExactly(account: Credential, run: seq<Action>, p: nat, now: int)
    requires Possible(Start(account), run) && EveryStep(Start(account), run, Fresh) && EveryStep(Start(account), run, Lasts)
    requires At(After(Start(account), run), p) == Checking(Current(After(Start(account), run)))
    ensures var s := After(Start(account), run); var c := Announced(s);
      At(Step(s, Check(p, now)), p) ==
        if c.refresh.text != 0 && (c.access.text == 0 || Expiring(c.expires, now)) then Waiting(Current(s)) else Idle
  {
    StartOrderly(account);
    AlwaysOrderly(Start(account), run);
  }

  /** Past the lock a caller asks exactly if nobody has renewed the credential meanwhile, or
      what was renewed is already about to expire. */
  lemma DecidedExactly(account: Credential, run: seq<Action>, p: nat, now: int)
    requires Possible(Start(account), run) && EveryStep(Start(account), run, Fresh) && EveryStep(Start(account), run, Lasts)
    requires At(After(Start(account), run), p).Deciding?
    ensures var s := After(Start(account), run); var c := Announced(s);
      AsksUpstream(s, Decide(p, now)) <==> At(s, p).previous.access == c.access || Expiring(c.expires, now)
  {
    StartOrderly(account);
    AlwaysOrderly(Start(account), run);
    var s := After(Start(account), run);
    assert CallerKnown(s.known, At(s, p)) && UpToDate(s, At(s, p));
  }

  /** Two callers find the same credential stale, and one of them renews it. */
  lemma RenewedWhileWaiting() returns (run: seq<Action>)
    ensures Possible(Start(Old), run)
    ensures var s := After(Start(Old), run);
      && s.held == Held(New, New, false, Token(0, false)) && s.lock == None && At(s, 1) == Waiting(Old)
      && s.issued == [Issued(New.access, New.refresh, New.expires)] && s.loaded == Old
  {
    var s := Start(Old);
    run := Then(s, [], Ensure(1));
    run := Then(s, run, Check(1, 0));
    run := Then(s, run, Ensure(0));
    run := Then(s, run, Check(0, 0));
    run := Then(s, run, Acquire(0));
    run := Then(s, run, Reread(0));
    run := Then(s, run, Decide(0, 0));
    run := Then(s, run, Answered(0, Issued(New.access, New.refresh, New.expires)));
    run := Then(s, run, PersistDone(0, true));
    run := Then(s, run, MarkClean(0));
  }

  /** If what was issued is already about to expire, the caller that waited asks with the
      refresh token that the renewal has replaced. */
  lemma StaleTokenSent() returns (run: seq<Action>, a: Action)
    ensures Possible(Start(Old), run) && Enabled(After(Start(Old), run), a) && AsksUpstream(After(Start(Old), run), a)
    ensures At(After(Start(Old), run), a.p).previous.refresh.text != Current(After(Start(Old), run)).refresh.text
    ensures var s := After(Start(Old), run);
      a == Decide(1, 0) && At(s, 1).previous == Old && s.issued == [Issued(New.access, New.refresh, New.expires)]
  {
    var s := Start(Old);
    run := RenewedWhileWaiting();
    run := Then(s, run, Acquire(1));
    run := Then(s, run, Reread(1));
    a := Decide(1, 0);
  }

  lemma AnsweredWithout(s: State, a: Action, answer: Grant)
    requires Enabled(s, a) && AsksUpstream(s, a) && answer.expires.None? && answer.access.text != 0
    ensures var asked := Step(s, a);
      && Enabled(asked, Answered(a.p, answer))
      && Current(Step(asked, Answered(a.p, answer))).expires == At(s, a.p).previous.expires
      && Step(asked, Answered(a.p, answer)).issued == s.issued + [answer]
  {
  }

  lemma NamedBefore(loaded: Option<int>, first: Grant, answer: Grant)
    requires answer.expires.None? && first.expires.Some?
    ensures NamedExpiry(loaded, [first] + [answer]) == first.expires
  {
    assert ([first] + [answer])[..1] == [first];
  }

  /** An answer without an expiry gives the credential that of the caller that asked, which
      need not be the one named last. */
  lemma ExpiryGoesBack() returns (run: seq<Action>)
    ensures Possible(Start(Old), run)
    ensures NamedExpiry(Old.expires, Grants(run)) == New.expires && Current(After(Start(Old), run)).expires == Old.expires != New.expires
  {
    var s, answer := Start(Old), Issued(Token(5, false), Token(6, false), None);
    var stale, asking := StaleTokenSent();
    AnsweredWithout(After(s, stale), asking, answer);
    run := Then(s, stale, asking);
    run := Then(s, run, Answered(1, answer));
    IssuedInRun(s, run);
    assert s.issued + Grants(run) == Grants(run);
    NamedBefore(Old.expires, Issued(New.access, New.refresh, New.expires), answer);
  }
}
