/** The worker that persists quota use: requests are coalesced by account, and a wake-up
    channel with one slot tells the worker that there are some. Any number of request
    handlers and the worker run at the same time; a step is what happens between two
    points where another of them may run. */
module QuotaSync {
  import opened Text
  import Sets

  /** What is pending for one account: the headers of its latest request, and how many
      requests there were. */
  datatype Job = Job(headers: nat, requests: nat)

  datatype Worker = Waiting | Draining | Holding(id: int, job: Job)

  /** `signalling` handlers have recorded a request and not yet tried to wake the worker. */
  datatype State = State(pending: map<int, Job>, token: bool, worker: Worker, signalling: nat, persisted: seq<(int, Job)>)

  const Start := State(map[], false, Waiting, 0, [])

  datatype Action =
    | Record(id: int, headers: nat) // a handler adds its request under the lock
    | Signal                        // and then offers a token, which the channel takes if it is empty
    | Wake                          // the worker receives the token
    | Take(taken: int)              // it takes a job, any job, out of the map
    | FindEmpty                     // or finds the map empty
    | Persist                       // and it writes the job it has taken

  predicate Enabled(s: State, a: Action) {
    match a
    case Record(_, _) => true
    case Signal => s.signalling > 0
    case Wake => s.worker.Waiting? && s.token
    case Take(id) => s.worker.Draining? && id in s.pending
    case FindEmpty => s.worker.Draining? && s.pending == map[]
    case Persist => s.worker.Holding?
  }

  function Recorded(pending: map<int, Job>, id: int, headers: nat): map<int, Job> {
    pending[id := Job(headers, (if id in pending then pending[id].requests else 0) + 1)]
  }

  function Step(s: State, a: Action): State
    requires Enabled(s, a)
  {
    match a
    case Record(id, headers) => s.(pending := Recorded(s.pending, id, headers), signalling := s.signalling + 1)
    case Signal => s.(token := true, signalling := s.signalling - 1)
    case Wake => s.(token := false, worker := Draining)
    // Account id 0 also says that nothing was found.
    case Take(id) => s.(pending := s.pending - {id}, worker := if id == 0 then Waiting else Holding(id, s.pending[id]))
    case FindEmpty => s.(worker := Waiting)
    case Persist => s.(worker := Draining, persisted := s.persisted + [(s.worker.id, s.worker.job)])
  }

  // ---- the worker and the handlers ----

  class QuotaQueue {
    var pending: map<int, Job>
    var wake: bool

    // Where the worker and the handlers are.
    ghost var worker: Worker
    ghost var signalling: nat
    ghost var persisted: seq<(int, Job)>

    ghost function View(): State
      reads this
    {
      State(pending, wake, worker, signalling, persisted)
    }

    constructor ()
      ensures View() == Start
    {
      pending, wake, worker, signalling, persisted := map[], false, Waiting, 0, [];
    }

    /** The locked part of a handler's call. */
    method AddRequest(id: int, headers: nat)
      modifies this
      ensures View() == Step(old(View()), Record(id, headers))
    {
      var job := if id in pending then pending[id] else Job(0, 0);
      job := job.(headers := headers, requests := job.requests + 1);
      pending := pending[id := job];
      signalling := signalling + 1;
    }

    /** The rest of it: a full channel is left alone. */
    method Offer()
      requires Enabled(View(), Signal)
      modifies this
      ensures View() == Step(old(View()), Signal)
    {
      if !wake {
        wake := true;
      }
      signalling := signalling - 1;
    }

    method Receive()
      requires Enabled(View(), Wake)
      modifies this
      ensures View() == Step(old(View()), Wake)
    {
      wake := false;
      worker := Draining;
    }

    /** The locked part of the worker's loop: the first job a range over the map comes to,
        which may be any. Without one the account id stays 0. */
    method TakeOne() returns (accountID: int, job: Job)
      requires worker.Draining?
      modifies this
      ensures old(pending) == map[] ==> accountID == 0 && View() == Step(old(View()), FindEmpty)
      ensures old(pending) != map[] ==> accountID in old(pending) && View() == Step(old(View()), Take(accountID))
      ensures accountID != 0 ==> View().worker == Holding(accountID, job)
    {
      accountID, job := 0, Job(0, 0);
      if pending != map[] {
        assert pending.Keys == {} ==> pending == map[];
        var id := Sets.Pick(pending.Keys);
        accountID, job := id, pending[id];
        pending := pending - {id};
      }
      worker := if accountID == 0 then Waiting else Holding(accountID, job);
    }

    method Write()
      requires Enabled(View(), Persist)
      modifies this
      ensures View() == Step(old(View()), Persist)
    {
      persisted := persisted + [(worker.id, worker.job)];
      worker := Draining;
    }
  }

  // ---- runs ----

  /** Can these steps be taken one after the other, from `s`? */
  predicate Possible(s: State, run: seq<Action>)
    decreases run
  {
    run == [] || (Enabled(s, run[0]) && Possible(Step(s, run[0]), run[1..]))
  }

  function After(s: State, run: seq<Action>): State
    requires Possible(s, run)
    decreases run
  {
    if run == [] then s else After(Step(s, run[0]), run[1..])
  }

  function Calls(run: seq<Action>, id: int): nat {
    if run == [] then 0 else (if run[0].Record? && run[0].id == id then 1 else 0) + Calls(run[1..], id)
  }

  function Written(persisted: seq<(int, Job)>, id: int): nat {
    if persisted == [] then 0
    else
      var last := persisted[|persisted| - 1];
      Written(persisted[..|persisted| - 1], id) + if last.0 == id then last.1.requests else 0
  }

  function InMap(s: State, id: int): nat { if id in s.pending then s.pending[id].requests else 0 }

  function InHand(s: State, id: int): nat { if s.worker.Holding? && s.worker.id == id then s.worker.job.requests else 0 }

  /** Requests of an account that are accounted for. */
  function Known(s: State, id: int): nat { Written(s.persisted, id) + InMap(s, id) + InHand(s, id) }

  lemma StepConserves(s: State, a: Action, id: int)
    requires Enabled(s, a) && (id != 0 || a != Take(0))
    ensures Known(Step(s, a), id) == Known(s, id) + if a.Record? && a.id == id then 1 else 0
  {
    if a.Persist? {
      assert (s.persisted + [(s.worker.id, s.worker.job)])[..|s.persisted|] == s.persisted;
    }
  }

  /** Every call of a non-zero account is written, pending or in the worker's hand. */
  lemma {:induction false} NothingLost(s: State, run: seq<Action>, id: int)
    requires Possible(s, run) && id != 0
    ensures Known(After(s, run), id) == Known(s, id) + Calls(run, id)
    decreases run
  {
    if run != [] {
      StepConserves(s, run[0], id);
      NothingLost(Step(s, run[0]), run[1..], id);
    }
  }

  /** While something is pending the worker has been or is about to be told. */
  ghost predicate Announced(s: State) {
    s.pending != map[] ==> s.token || !s.worker.Waiting? || s.signalling > 0
  }

  lemma StepAnnounces(s: State, a: Action)
    requires Enabled(s, a) && Announced(s) && a != Take(0)
    ensures Announced(Step(s, a))
  {
  }

  /** The worker cannot fall asleep on pending requests as long as it takes no job of
      account 0. */
  lemma {:induction false} AnnouncedUntilZero(s: State, run: seq<Action>)
    requires Possible(s, run) && Announced(s) && Take(0) !in run
    ensures Announced(After(s, run))
    decreases run
  {
    if run != [] {
      StepAnnounces(s, run[0]);
      AnnouncedUntilZero(Step(s, run[0]), run[1..]);
    }
  }

  /** Only these accounts make requests. */
  ghost predicate OfAccounts(run: seq<Action>, ids: iset<int>) {
    forall a :: a in run && a.Record? ==> a.id in ids
  }

  /** Account 0 is not among them, or is alone. */
  ghost predicate Unmixed(ids: iset<int>) { 0 !in ids || ids == iset{0} }

  ghost predicate PendingOf(s: State, ids: iset<int>) { forall id :: id in s.pending ==> id in ids }

  lemma StepUnmixed(s: State, a: Action, ids: iset<int>)
    requires Enabled(s, a) && Announced(s) && PendingOf(s, ids) && (a.Record? ==> a.id in ids) && Unmixed(ids)
    ensures Announced(Step(s, a)) && PendingOf(Step(s, a), ids)
  {
    if a == Take(0) {
      assert forall id :: id in Step(s, a).pending ==> id == 0;
      assert Step(s, a).pending == map[];
    } else {
      StepAnnounces(s, a);
    }
  }

  lemma {:induction false} AnnouncedUnmixed(s: State, run: seq<Action>, ids: iset<int>)
    requires Possible(s, run) && Announced(s) && PendingOf(s, ids) && OfAccounts(run, ids) && Unmixed(ids)
    ensures Announced(After(s, run))
    decreases run
  {
    if run != [] {
      assert run[0] in run && forall a :: a in run[1..] ==> a in run;
      StepUnmixed(s, run[0], ids);
      AnnouncedUnmixed(Step(s, run[0]), run[1..], ids);
    }
  }

  ghost predicate AllAnnounced(ids: iset<int>) {
    forall run :: Possible(Start, run) && OfAccounts(run, ids) ==> Announced(After(Start, run))
  }

  lemma OtherThanZero(ids: iset<int>) returns (id: int)
    requires !Unmixed(ids)
    ensures id in ids && id != 0
  {
    assert (forall k :: k in ids ==> k == 0) ==> ids <= iset{0};
    id :| id in ids && id != 0;
  }

  /** The worker never falls asleep on pending requests, whatever the run, exactly if
      account 0 makes no requests or no other account does. */
  lemma AlwaysAnnounced(ids: iset<int>)
    ensures AllAnnounced(ids) <==> Unmixed(ids)
  {
    if Unmixed(ids) {
      forall run | Possible(Start, run) && OfAccounts(run, ids)
        ensures Announced(After(Start, run))
      {
        AnnouncedUnmixed(Start, run, ids);
      }
    } else {
      var id := OtherThanZero(ids);
      ZeroIsLost(id);
      assert OfAccounts(AsleepOn(id), ids);
    }
  }

  function AsleepOn(id: int): seq<Action> { [Record(0, 0), Record(id, 0), Signal, Signal, Wake, Take(0)] }

  lemma First(s: State, a: Action, rest: seq<Action>, run: seq<Action>)
    requires Enabled(s, a) && Possible(Step(s, a), rest) && run == [a] + rest
    ensures Possible(s, run) && After(s, run) == After(Step(s, a), rest)
  {
    assert run[1..] == rest;
  }

  /** A job of account 0 loses its requests, and puts the worker to sleep on the requests
      of any other account. */
  lemma ZeroIsLost(id: int)
    requires id != 0
    ensures Possible(Start, AsleepOn(id))
    ensures var s := After(Start, AsleepOn(id)); !Announced(s) && AtRest(s) && Known(s, 0) == 0 && InMap(s, id) == 1
  {
    var one := Step(Start, Record(0, 0));
    var both := Step(one, Record(id, 0));
    var told := Step(Step(both, Signal), Signal);
    var awake := Step(told, Wake);
    First(awake, Take(0), [], [Take(0)]);
    First(told, Wake, [Take(0)], [Wake, Take(0)]);
    First(Step(both, Signal), Signal, [Wake, Take(0)], [Signal, Wake, Take(0)]);
    First(both, Signal, [Signal, Wake, Take(0)], [Signal, Signal, Wake, Take(0)]);
    First(one, Record(id, 0), [Signal, Signal, Wake, Take(0)], [Record(id, 0), Signal, Signal, Wake, Take(0)]);
    First(Start, Record(0, 0), [Record(id, 0), Signal, Signal, Wake, Take(0)], AsleepOn(id));
    assert Step(awake, Take(0)).pending == map[id := Job(0, 1)];
    assert id in Step(awake, Take(0)).pending.Keys;
  }

  // ---- whose headers are kept ----

  /** The headers of the last request that an account made. */
  function LastHeaders(run: seq<Action>, id: int): Option<nat> {
    if run == [] then None
    else if run[|run| - 1].Record? && run[|run| - 1].id == id then Some(run[|run| - 1].headers)
    else LastHeaders(run[..|run| - 1], id)
  }

  lemma {:induction false} AfterLast(s: State, run: seq<Action>)
    requires Possible(s, run) && run != []
    ensures var most := run[..|run| - 1];
      && Possible(s, most) && Enabled(After(s, most), run[|run| - 1]) && After(s, run) == Step(After(s, most), run[|run| - 1])
    decreases run
  {
    if |run| > 1 {
      AfterLast(Step(s, run[0]), run[1..]);
      assert run[..|run| - 1][1..] == run[1..][..|run| - 2];
    }
  }

  /** What is pending for an account has the headers of its latest request. */
  lemma {:induction false} LatestKept(run: seq<Action>, id: int)
    requires Possible(Start, run) && id in After(Start, run).pending
    ensures LastHeaders(run, id) == Some(After(Start, run).pending[id].headers)
    decreases |run|
  {
    if run != [] {
      AfterLast(Start, run);
      var most, a := run[..|run| - 1], run[|run| - 1];
      if !(a.Record? && a.id == id) { LatestKept(most, id); }
    }
  }

  // ---- coming to rest ----

  predicate AtRest(s: State) {
    s.worker.Waiting? && !s.token && s.signalling == 0
  }

  lemma SomethingToTake(s: State)
    requires s.worker.Draining? && s.pending != map[]
    ensures exists id :: Enabled(s, Take(id))
  {
    assert s.pending.Keys == {} ==> s.pending == map[];
    var id := Sets.Member(s.pending.Keys);
    assert Enabled(s, Take(id));
  }

  /** At rest nothing but a new request can happen, and otherwise something else can. */
  lemma RestExactly(s: State)
    ensures AtRest(s) <==> forall a :: Enabled(s, a) ==> a.Record?
  {
    if !AtRest(s) && !Enabled(s, Signal) && !Enabled(s, Wake) && !Enabled(s, Persist) && !Enabled(s, FindEmpty) {
      SomethingToTake(s);
    }
  }

  /** The steps that are left when no more requests come. */
  function Left(s: State): nat {
    3 * s.signalling + (if s.token then 2 else 0) + 2 * |s.pending|
    + match s.worker case Waiting => 0 case Draining => 1 case Holding(_, _) => 2
  }

  lemma {:induction false} ComesToRest(s: State, run: seq<Action>)
    requires Possible(s, run) && forall a :: a in run ==> !a.Record?
    ensures |run| + Left(After(s, run)) <= Left(s)
    decreases run
  {
    if run != [] {
      var s' := Step(s, run[0]);
      assert run[0] in run;
      if run[0].Take? {
        assert s'.pending.Keys == s.pending.Keys - {run[0].taken};
        assert |s'.pending| == |s'.pending.Keys| && |s.pending| == |s.pending.Keys|;
      }
      assert Left(s') < Left(s);
      ComesToRest(s', run[1..]);
    }
  }

  /** Every request of every account but 0 is written, and none is left behind. */
  ghost predicate Cleared(run: seq<Action>)
    requires Possible(Start, run)
  {
    && After(Start, run).pending == map[]
    && forall id :: id != 0 ==> Written(After(Start, run).persisted, id) == Calls(run, id)
  }

  lemma ClearedAtRest(run: seq<Action>)
    requires Possible(Start, run) && AtRest(After(Start, run)) && Announced(After(Start, run))
    ensures Cleared(run)
  {
    forall id | id != 0
      ensures Written(After(Start, run).persisted, id) == Calls(run, id)
    {
      NothingLost(Start, run, id);
    }
  }

  ghost predicate AllCleared(ids: iset<int>) {
    forall run :: Possible(Start, run) && OfAccounts(run, ids) && AtRest(After(Start, run)) ==> Cleared(run)
  }

  /** Once nothing is left to do every request is written, whatever the run, exactly if
      account 0 makes no requests or no other account does. */
  lemma AllWritten(ids: iset<int>)
    ensures AllCleared(ids) <==> Unmixed(ids)
  {
    if Unmixed(ids) {
      forall run | Possible(Start, run) && OfAccounts(run, ids) && AtRest(After(Start, run))
        ensures Cleared(run)
      {
        AnnouncedUnmixed(Start, run, ids);
        ClearedAtRest(run);
      }
    } else {
      var id := OtherThanZero(ids);
      ZeroIsLost(id);
      assert OfAccounts(AsleepOn(id), ids);
      assert After(Start, AsleepOn(id)).pending != map[];
    }
  }

  /** The same for one run, as long as no job of account 0 is taken. */
  lemma ClearedUntilZero(run: seq<Action>)
    requires Possible(Start, run) && Take(0) !in run && AtRest(After(Start, run))
    ensures Cleared(run)
  {
    AnnouncedUntilZero(Start, run);
    ClearedAtRest(run);
  }

  /** Account 0 is never written, whatever the run. */
  lemma {:induction false} ZeroNeverWritten(s: State, run: seq<Action>)
    requires Possible(s, run) && Written(s.persisted, 0) == 0 && (s.worker.Holding? ==> s.worker.id != 0)
    ensures Written(After(s, run).persisted, 0) == 0
    decreases run
  {
    if run != [] {
      if run[0].Persist? {
        assert (s.persisted + [(s.worker.id, s.worker.job)])[..|s.persisted|] == s.persisted;
      }
      ZeroNeverWritten(Step(s, run[0]), run[1..]);
    }
  }

  /** Once nothing is pending or in hand, an account's requests have all been written
      exactly if it is not account 0 or made none. */
  lemma WrittenExactly(run: seq<Action>, id: int)
    requires Possible(Start, run) && AtRest(After(Start, run)) && After(Start, run).pending == map[]
    ensures Written(After(Start, run).persisted, id) == Calls(run, id) <==> (id != 0 || Calls(run, id) == 0)
  {
    if id != 0 {
      NothingLost(Start, run, id);
    } else {
      ZeroNeverWritten(Start, run);
    }
  }
}
