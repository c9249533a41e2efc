/** The audit log's bounded queue: any number of callers hand events to one writer. A step
    is what happens between two points where another party may run: a section under the
    lock, or one operation on the channel. The writer receives without the lock, so it may
    run between the send of an event and the count of its bytes. */
module AuditQueue {
  import opened Text
  import Seqs

  /** An event in its serialized form. */
  datatype Item = Item(event: nat, size: nat)

  /** What the writer is doing: waiting for an event; collecting a batch; done collecting;
      writing a batch whose bytes are no longer counted; finished. */
  datatype Writer = Receiving | Collecting(batch: seq<Item>) | Collected(batch: seq<Item>) | Writing(batch: seq<Item>) | Finished

  datatype Health = Health(queuedBytes: int, written: nat, dropped: nat, writeFailed: nat)

  /** `sent` is the item a caller has sent and, still holding the lock, not counted yet;
      `attempted` are the items whose write was tried, in order, and whether it worked. */
  datatype State = State(closed: bool, queue: seq<Item>, sent: Option<Item>, health: Health, writer: Writer, attempted: seq<(Item, bool)>)

  const MaxEventBytes := 32 * 1024
  const MaxQueuedBytes := 8 * 1024 * 1024
  const Capacity := 4096
  const MaxBatch := 128

  const Start := State(false, [], None, Health(0, 0, 0, 0), Receiving, [])

  datatype Action =
    | Log(item: Item, encodes: bool) // a caller takes the lock, and sends its event or drops it
    | CountIn                        // it counts the bytes it has sent, and lets go of the lock
    | Close                          // closing, under the lock
    | Receive                        // the writer's blocking receive
    | Collect                        // its further receives that do not block
    | EndCollecting                  // the batch is full or the channel is empty
    | Uncount                        // the batch's bytes leave the account, under the lock
    | Write(results: seq<bool>)      // the batch is written and its outcome counted
    | End                            // the channel is closed and empty

  predicate Enabled(s: State, a: Action) {
    match a
    case Log(_, _) => s.sent.None?
    case CountIn => s.sent.Some?
    case Close => s.sent.None?
    case Receive => s.writer.Receiving? && s.queue != []
    case Collect => s.writer.Collecting? && |s.writer.batch| < MaxBatch && s.queue != []
    case EndCollecting => s.writer.Collecting? && (|s.writer.batch| >= MaxBatch || s.queue == [])
    case Uncount => s.writer.Collected? && s.sent.None?
    case Write(results) => s.writer.Writing? && s.sent.None? && |results| == |s.writer.batch|
    case End => s.writer.Receiving? && s.closed && s.queue == []
  }

  /** Is an event taken in? */
  predicate Accepts(s: State, item: Item, encodes: bool) {
    && !s.closed && encodes && item.size <= MaxEventBytes && s.health.queuedBytes + item.size <= MaxQueuedBytes
    && |s.queue| < Capacity
  }

  function Size(items: seq<Item>): nat {
    if items == [] then 0 else Size(items[..|items| - 1]) + items[|items| - 1].size
  }

  function Count(results: seq<bool>, b: bool): nat {
    if results == [] then 0 else Count(results[..|results| - 1], b) + if results[|results| - 1] == b then 1 else 0
  }

  function Outcomes(items: seq<Item>, results: seq<bool>): (r: seq<(Item, bool)>)
    requires |items| == |results|
    ensures |r| == |items|
  {
    seq(|items|, i requires 0 <= i < |items| => (items[i], results[i]))
  }

  function Step(s: State, a: Action): State
    requires Enabled(s, a)
  {
    var h := s.health;
    match a
    case Log(item, encodes) =>
      if Accepts(s, item, encodes) then s.(queue := s.queue + [item], sent := Some(item))
      else s.(health := h.(dropped := h.dropped + 1))
    case CountIn => s.(sent := None, health := h.(queuedBytes := h.queuedBytes + s.sent.value.size))
    case Close => s.(closed := true)
    case Receive => s.(queue := s.queue[1..], writer := Collecting([s.queue[0]]))
    case Collect => s.(queue := s.queue[1..], writer := Collecting(s.writer.batch + [s.queue[0]]))
    case EndCollecting => s.(writer := Collected(s.writer.batch))
    case Uncount => s.(writer := Writing(s.writer.batch), health := h.(queuedBytes := h.queuedBytes - Size(s.writer.batch)))
    case Write(results) =>
      s.(writer := Receiving, attempted := s.attempted + Outcomes(s.writer.batch, results),
         health := h.(written := h.written + Count(results, true), writeFailed := h.writeFailed + Count(results, false)))
    case End => s.(writer := Finished)
  }

  /** An event is dropped exactly if the logger is closed, the event does not encode, it is
      of more than 32 KiB, or there is no room for it in 8 MiB or among 4096 events. */
  lemma DroppedExactly(s: State, item: Item, encodes: bool)
    requires Enabled(s, Log(item, encodes))
    ensures Step(s, Log(item, encodes)).health.dropped == s.health.dropped + 1 <==>
      s.closed || !encodes || item.size > 32768 || s.health.queuedBytes + item.size > 8388608 || |s.queue| >= 4096
    ensures Step(s, Log(item, encodes)).sent == Some(item) <==> Step(s, Log(item, encodes)).health.dropped == s.health.dropped
  {
  }

  // ---- the logger ----

  class Logger {
    var closed: bool
    var events: seq<Item>
    var queuedBytes: int
    var written: nat
    var dropped: nat
    var writeFailed: nat

    // Where the writer is, and what it has tried to write.
    ghost var writer: Writer
    ghost var attempted: seq<(Item, bool)>

    ghost function View(): State
      reads this
    {
      State(closed, events, None, Health(queuedBytes, written, dropped, writeFailed), writer, attempted)
    }

    constructor ()
      ensures View() == Start
    {
      closed, events, queuedBytes, written, dropped, writeFailed := false, [], 0, 0, 0, 0;
      writer, attempted := Receiving, [];
    }

    method Log(item: Item, encodes: bool)
      modifies this
      ensures var s := Step(old(View()), Action.Log(item, encodes));
        View() == if s.sent.Some? then Step(s, CountIn) else s
    {
      if closed || !encodes || item.size > MaxEventBytes || queuedBytes + item.size > MaxQueuedBytes {
        dropped := dropped + 1;
        return;
      }
      if |events| < Capacity {
        events := events + [item];
        queuedBytes := queuedBytes + item.size;
      } else {
        dropped := dropped + 1;
      }
    }

    method Close()
      modifies this
      ensures View() == Step(old(View()), Action.Close)
    {
      if !closed {
        closed := true;
      }
    }

    /** Takes the bytes of a batch off the account. */
    method UncountBatch(batch: seq<Item>)
      requires Enabled(View(), Uncount) && batch == writer.batch
      modifies this
      ensures View() == Step(old(View()), Uncount)
    {
      ghost var before := View();
      var k := 0;
      while k < |batch|
        invariant 0 <= k <= |batch| && View() == before.(health := before.health.(queuedBytes := before.health.queuedBytes - Size(batch[..k])))
      {
        assert batch[..k + 1][..k] == batch[..k];
        queuedBytes := queuedBytes - batch[k].size;
        k := k + 1;
      }
      assert batch[..k] == batch;
      writer := Writing(batch);
    }

    /** Counts how the writes of a batch came out. */
    method CountBatch(results: seq<bool>)
      requires Enabled(View(), Action.Write(results))
      modifies this
      ensures View() == Step(old(View()), Action.Write(results))
    {
      ghost var before := View();
      var k := 0;
      while k < |results|
        invariant 0 <= k <= |results|
        invariant View() == before.(health := before.health.(
          written := before.health.written + Count(results[..k], true), writeFailed := before.health.writeFailed + Count(results[..k], false)))
      {
        assert results[..k + 1][..k] == results[..k];
        if results[k] { written := written + 1; } else { writeFailed := writeFailed + 1; }
        k := k + 1;
      }
      assert results[..k] == results;
      attempted := attempted + Outcomes(writer.batch, results);
      writer := Receiving;
    }

    /** One receive of the writer, if the channel has something for it. */
    method ReceiveOne() returns (item: Item)
      requires Enabled(View(), Receive) || Enabled(View(), Collect)
      modifies this
      ensures View() == Step(old(View()), if old(writer).Receiving? then Receive else Collect)
      ensures item == old(events)[0]
    {
      item := events[0];
      events := events[1..];
      writer := if writer.Receiving? then Collecting([item]) else Collecting(writer.batch + [item]);
    }
  }

  // ---- runs ----

  predicate Possible(s: State, run: seq<Action>)
    decreases run
  {
    run == [] || (Enabled(s, run[0]) && Possible(Step(s, run[0]), run[1..]))
  }

  function After(s: State, run: seq<Action>): State
    requires Possible(s, run)
    decreases run
  {
    if run == [] then s else After(Step(s, run[0]), run[1..])
  }

  function Batch(w: Writer): seq<Item> { if w.Receiving? || w.Finished? then [] else w.batch }

  /** The items whose bytes are still to be counted off. */
  function Pending(s: State): seq<Item> {
    (if s.writer.Writing? then [] else Batch(s.writer)) + s.queue
  }

  /** The bytes that are sent and not counted yet. Under the lock, when nobody else is
      logging, there are none. */
  function Uncounted(s: State): nat { if s.sent.Some? then s.sent.value.size else 0 }

  /** What every step keeps. */
  ghost predicate Inv(s: State) { BytesRight(s) && BoundsKept(s) && CountersRight(s) }

  ghost predicate BytesRight(s: State) {
    && s.health.queuedBytes + Uncounted(s) == Size(Pending(s)) <= MaxQueuedBytes
    && 0 <= s.health.queuedBytes && (s.closed ==> s.sent.None?)
  }

  ghost predicate BoundsKept(s: State) {
    && |s.queue| <= Capacity && |Batch(s.writer)| <= MaxBatch
    && (s.writer.Finished? ==> s.closed && s.queue == [])
  }

  ghost predicate CountersRight(s: State) {
    s.health.written == Tally(s.attempted, true) && s.health.writeFailed == Tally(s.attempted, false)
  }

  function Tally(attempted: seq<(Item, bool)>, b: bool): nat {
    if attempted == [] then 0 else Tally(attempted[..|attempted| - 1], b) + if attempted[|attempted| - 1].1 == b then 1 else 0
  }

  /** Everything that was ever taken in, in order: tried, in the batch, in the queue. */
  function Accepted(s: State): seq<Item> {
    Items(s.attempted) + Batch(s.writer) + s.queue
  }

  function Items(attempted: seq<(Item, bool)>): (r: seq<Item>)
    ensures |r| == |attempted|
  {
    seq(|attempted|, i requires 0 <= i < |attempted| => attempted[i].0)
  }

  lemma {:induction false} SizeJoin(a: seq<Item>, b: seq<Item>)
    ensures Size(a + b) == Size(a) + Size(b)
  {
    if b == [] {
      assert a + b == a;
    } else {
      SizeJoin(a, b[..|b| - 1]);
      assert (a + b)[..|a + b| - 1] == a + b[..|b| - 1];
    }
  }

  lemma {:induction false} TallyOutcomes(attempted: seq<(Item, bool)>, items: seq<Item>, results: seq<bool>, b: bool)
    requires |items| == |results|
    ensures Tally(attempted + Outcomes(items, results), b) == Tally(attempted, b) + Count(results, b)
  {
    var more := Outcomes(items, results);
    if results == [] {
      assert attempted + more == attempted;
    } else {
      var n := |results| - 1;
      TallyOutcomes(attempted, items[..n], results[..n], b);
      assert (attempted + more)[..|attempted| + n] == attempted + Outcomes(items[..n], results[..n]);
    }
  }

  /** Receiving moves the head of the queue into the batch and keeps the order. */
  lemma Moved(batch: seq<Item>, queue: seq<Item>)
    requires queue != []
    ensures batch + [queue[0]] + queue[1..] == batch + queue
  {
  }

  /** What a step takes in. */
  function Taken(s: State, a: Action): seq<Item> {
    if a.Log? && Accepts(s, a.item, a.encodes) then [a.item] else []
  }

  /** Which items are counted changes only where their bytes do. */
  lemma CountedChange(s: State, a: Action)
    requires Enabled(s, a)
    ensures Size(Pending(Step(s, a))) == Size(Pending(s)) + Size(Taken(s, a)) - if a.Uncount? then Size(s.writer.batch) else 0
  {
    match a
    case Log(item, encodes) =>
      if Accepts(s, item, encodes) { LogCounted(s, item, encodes); }
    case Receive => ReceiveCounted(s);
    case Collect => CollectCounted(s);
    case Uncount => UncountCounted(s);
    case _ =>
  }

  lemma LogCounted(s: State, item: Item, encodes: bool)
    requires Enabled(s, Log(item, encodes)) && Accepts(s, item, encodes)
    ensures Size(Pending(Step(s, Log(item, encodes)))) == Size(Pending(s)) + Size([item])
  {
    assert Pending(Step(s, Log(item, encodes))) == Pending(s) + [item];
    SizeJoin(Pending(s), [item]);
  }

  lemma ReceiveCounted(s: State)
    requires Enabled(s, Receive)
    ensures Pending(Step(s, Receive)) == Pending(s)
  {
    assert [s.queue[0]] + s.queue[1..] == [] + s.queue;
  }

  lemma CollectCounted(s: State)
    requires Enabled(s, Collect)
    ensures Pending(Step(s, Collect)) == Pending(s)
  {
    Moved(s.writer.batch, s.queue);
  }

  lemma UncountCounted(s: State)
    requires Enabled(s, Uncount)
    ensures Size(Pending(Step(s, Uncount))) == Size(Pending(s)) - Size(s.writer.batch)
  {
    var batch, queue := s.writer.batch, s.queue;
    SizeJoin(batch, queue);
    assert Pending(s) == batch + queue;
    assert Pending(Step(s, Uncount)) == queue;
  }

  lemma OneSize(item: Item)
    ensures Size([item]) == item.size
  {
    assert [item][..0] == [];
  }

  lemma StepBytes(s: State, a: Action)
    requires BytesRight(s) && Enabled(s, a)
    ensures BytesRight(Step(s, a))
  {
    CountedChange(s, a);
    if a.Log? { OneSize(a.item); }
  }

  lemma StepBounds(s: State, a: Action)
    requires BoundsKept(s) && Enabled(s, a)
    ensures BoundsKept(Step(s, a))
  {
  }

  lemma StepCounters(s: State, a: Action)
    requires CountersRight(s) && Enabled(s, a)
    ensures CountersRight(Step(s, a))
  {
    if a.Write? {
      TallyOutcomes(s.attempted, s.writer.batch, a.results, true);
      TallyOutcomes(s.attempted, s.writer.batch, a.results, false);
    }
  }

  lemma StepKeeps(s: State, a: Action)
    requires Inv(s) && Enabled(s, a)
    ensures Inv(Step(s, a))
  {
    StepBytes(s, a);
    StepBounds(s, a);
    StepCounters(s, a);
  }

  /** In every run the account of queued bytes, with what is just being counted, is the
      size of what is queued or being collected, within its bound, and the counters count
      what was tried. */
  lemma {:induction false} AccountHolds(s: State, run: seq<Action>)
    requires Possible(s, run) && Inv(s)
    ensures Inv(After(s, run))
    decreases run
  {
    if run != [] {
      StepKeeps(s, run[0]);
      AccountHolds(Step(s, run[0]), run[1..]);
    }
  }

  /** When the writer has caught up, every event that encodes in 32 KiB is taken in. */
  lemma IdleTakesIn(run: seq<Action>, item: Item)
    requires Possible(Start, run) && item.size <= 32768
    requires var s := After(Start, run); !s.closed && s.sent.None? && s.queue == [] && s.writer.Receiving?
    ensures var s := After(Start, run);
      Enabled(s, Log(item, true)) && Step(s, Log(item, true)).queue == [item] && Step(s, Log(item, true)).health.dropped == s.health.dropped
  {
    AccountHolds(Start, run);
    assert Pending(After(Start, run)) == [];
  }

  lemma StepInOrder(s: State, a: Action)
    requires Enabled(s, a)
    ensures Accepted(Step(s, a)) == Accepted(s) + Taken(s, a)
  {
    match a
    case Receive =>
      Moved([], s.queue);
      Seqs.Assoc(Items(s.attempted), [s.queue[0]], s.queue[1..]);
    case Collect =>
      Moved(s.writer.batch, s.queue);
      Seqs.Assoc(Items(s.attempted), s.writer.batch + [s.queue[0]], s.queue[1..]);
    case Write(results) =>
      assert Items(s.attempted + Outcomes(s.writer.batch, results)) == Items(s.attempted) + s.writer.batch;
    case _ =>
  }

  /** Everything that was taken in, in the order in which it was. */
  function TakenIn(s: State, run: seq<Action>): seq<Item>
    requires Possible(s, run)
    decreases run
  {
    if run == [] then [] else Taken(s, run[0]) + TakenIn(Step(s, run[0]), run[1..])
  }

  /** Nothing that was taken in is lost, repeated or overtaken. */
  lemma {:induction false} InOrder(s: State, run: seq<Action>)
    requires Possible(s, run)
    ensures Accepted(After(s, run)) == Accepted(s) + TakenIn(s, run)
    decreases run
  {
    if run == [] {
      assert Accepted(s) + [] == Accepted(s);
    } else {
      StepInOrder(s, run[0]);
      InOrder(Step(s, run[0]), run[1..]);
      Seqs.Assoc(Accepted(s), Taken(s, run[0]), TakenIn(Step(s, run[0]), run[1..]));
    }
  }

  function Logs(run: seq<Action>): nat {
    if run == [] then 0 else (if run[0].Log? then 1 else 0) + Logs(run[1..])
  }

  lemma {:induction false} EveryLogCounted(s: State, run: seq<Action>)
    requires Possible(s, run)
    ensures |Accepted(After(s, run))| + After(s, run).health.dropped == |Accepted(s)| + s.health.dropped + Logs(run)
    decreases run
  {
    if run != [] {
      StepInOrder(s, run[0]);
      EveryLogCounted(Step(s, run[0]), run[1..]);
    }
  }

  lemma {:induction false} TallyAll(attempted: seq<(Item, bool)>)
    ensures Tally(attempted, true) + Tally(attempted, false) == |attempted|
  {
    if attempted != [] { TallyAll(attempted[..|attempted| - 1]); }
  }

  /** In every run each call of Log ends up in exactly one place. */
  lemma Conserved(run: seq<Action>)
    requires Possible(Start, run)
    ensures var s := After(Start, run);
      Logs(run) == s.health.written + s.health.writeFailed + s.health.dropped + |s.queue| + |Batch(s.writer)|
  {
    var s := After(Start, run);
    AccountHolds(Start, run);
    EveryLogCounted(Start, run);
    TallyAll(s.attempted);
  }

  // ---- closing ----

  /** Nothing is sent after the channel has been closed. */
  lemma {:induction false} ClosedTakesNothing(s: State, run: seq<Action>)
    requires Possible(s, run) && s.closed
    ensures After(s, run).closed && TakenIn(s, run) == []
    decreases run
  {
    if run != [] { ClosedTakesNothing(Step(s, run[0]), run[1..]); }
  }

  /** Close returns when the writer is done, and then everything that was taken in has
      been tried. */
  lemma FinishedEmpty(run: seq<Action>)
    requires Possible(Start, run) && After(Start, run).writer.Finished?
    ensures After(Start, run).queue == [] && Items(After(Start, run).attempted) == TakenIn(Start, run)
    ensures After(Start, run).health.queuedBytes == 0
  {
    AccountHolds(Start, run);
    InOrder(Start, run);
    var s := After(Start, run);
    assert Items(s.attempted) + [] + [] == Items(s.attempted);
    assert [] + TakenIn(Start, run) == TakenIn(Start, run);
  }

  predicate OfWriter(a: Action) { !a.Log? && !a.CountIn? && !a.Close? }

  /** The steps the writer has left to take when nothing more comes in. */
  function Left(s: State): nat {
    4 * |s.queue| + match s.writer case Finished => 0 case Receiving => 1 case Writing(_) => 2 case Collected(_) => 3 case Collecting(_) => 4
  }

  function WriterSteps(run: seq<Action>): nat {
    if run == [] then 0 else (if OfWriter(run[0]) then 1 else 0) + WriterSteps(run[1..])
  }

  /** After closing the writer has a bounded number of steps left ... */
  lemma {:induction false} ClosedRunsOut(s: State, run: seq<Action>)
    requires Possible(s, run) && s.closed
    ensures WriterSteps(run) + Left(After(s, run)) <= Left(s)
    decreases run
  {
    if run != [] {
      ClosedRunsOut(Step(s, run[0]), run[1..]);
    }
  }

  /** ... and can always take the next one, until it is done. */
  lemma ClosedGoesOn(s: State)
    requires s.closed && Inv(s)
    ensures s.writer.Finished? <==> forall a :: OfWriter(a) ==> !Enabled(s, a)
  {
    if s.writer.Writing? {
      var results := seq(|s.writer.batch|, i => true);
      assert Enabled(s, Write(results));
    } else if !s.writer.Finished? {
      assert Enabled(s, Receive) || Enabled(s, Collect) || Enabled(s, EndCollecting) || Enabled(s, Uncount) || Enabled(s, End);
    }
  }
}
