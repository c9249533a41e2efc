/** Evaluation passes: what starts firing, what recovers, and what is recorded. */
module AlertEngine {
  import opened Alerting
  import opened AlertOrder
  import Seqs
  import opened Text
  import Sets

  datatype Transition = Transition(firing: seq<Alert>, recovered: seq<Alert>)

  function Recovered(a: Alert): Alert { a.(recovered := true) }

  /** The alerts of a map at some keys, in the order of reporting. */
  ghost predicate Lists(s: seq<Alert>, m: map<Key, Alert>, keys: set<Key>) {
    && Ordered(s) && keys <= m.Keys
    && (forall k :: k in keys ==> m[k] in s && m[k].key == k)
    && (forall a :: a in s ==> a.key in keys && m[a.key] == a)
  }

  /** What a pass reports: the current alerts that were not firing, and those that were
      firing and are not current, each list in the order of reporting. */
  ghost predicate Reports(t: Transition, current: map<Key, Alert>, previous: map<Key, Alert>) {
    && Lists(t.firing, current, current.Keys - previous.Keys)
    && Lists(t.recovered, AllRecovered(previous), previous.Keys - current.Keys)
  }

  function AllRecovered(m: map<Key, Alert>): map<Key, Alert> { map k | k in m :: Recovered(m[k]) }

  /** Which alerts are listed, and in what order, does not depend on the order in which a
      map is ranged over. */
  lemma OneList(s: seq<Alert>, t: seq<Alert>, m: map<Key, Alert>, keys: set<Key>)
    requires Lists(s, m, keys) && Lists(t, m, keys)
    ensures s == t
  {
    forall x
      ensures x in s <==> x in t
    {
      assert x in s ==> m[x.key] == x && x.key in keys;
      assert x in t ==> m[x.key] == x && x.key in keys;
    }
    OneOrder(s, t);
  }

  /** Collects the alerts of a map at some keys, in any order, and sorts them. */
  method Collect(m: map<Key, Alert>, keys: set<Key>) returns (s: seq<Alert>)
    requires keys <= m.Keys && forall k :: k in m ==> m[k].key == k
    ensures Lists(s, m, keys)
  {
    var found := [];
    var left := keys;
    while left != {}
      invariant left <= keys && DistinctKeys(found)
      invariant forall k :: k in keys && k !in left ==> m[k] in found
      invariant forall a :: a in found ==> a.key in keys - left && m[a.key] == a
      decreases left
    {
      var k := Sets.Pick(left);
      found := found + [m[k]];
      left := left - {k};
    }
    var alerts := new Alert[|found|](i requires 0 <= i < |found| => found[i]);
    assert alerts[..] == found;
    SortAlerts(alerts);
    s := alerts[..];
    SortedOrdered(found);
    assert forall a :: a in s <==> a in multiset(s);
    assert forall a :: a in found <==> a in multiset(found);
  }

  /** One pass. */
  method EvaluatePass(channels: seq<Judged>, previous: map<Key, Alert>, r: Rules) returns (t: Transition)
    requires KeyedRight(previous)
    ensures Reports(t, Current(channels, previous, r), previous)
  {
    var current := Judge(channels, previous, r);
    CurrentExactly(channels, previous, r);
    var firing := Collect(current, current.Keys - previous.Keys);
    assert AllRecovered(previous).Keys == previous.Keys;
    var recovered := Collect(AllRecovered(previous), previous.Keys - current.Keys);
    t := Transition(firing, recovered);
  }

  /** What fires after a pass: what is current, as it was first raised. */
  function Next(current: map<Key, Alert>, previous: map<Key, Alert>): map<Key, Alert> {
    map k | k in current :: if k in previous then previous[k] else current[k]
  }

  method Drop(previous: map<Key, Alert>, recovered: seq<Alert>) returns (next: map<Key, Alert>)
    ensures forall k :: k in next <==> k in previous && !HasKey(recovered, k)
    ensures forall k :: k in next ==> next[k] == previous[k]
  {
    next := previous;
    var i := 0;
    while i < |recovered|
      invariant 0 <= i <= |recovered|
      invariant forall k :: k in next <==> k in previous && !HasKey(recovered[..i], k)
      invariant forall k :: k in next ==> next[k] == previous[k]
    {
      KeysMore(recovered, i);
      next := next - {recovered[i].key};
      i := i + 1;
    }
    assert recovered[..i] == recovered;
  }

  method Add(kept: map<Key, Alert>, firing: seq<Alert>, ghost current: map<Key, Alert>) returns (next: map<Key, Alert>)
    requires forall a :: a in firing ==> a.key !in kept && a.key in current && current[a.key] == a
    ensures forall k :: k in next <==> k in kept || HasKey(firing, k)
    ensures forall k :: k in next ==> if k in kept then next[k] == kept[k] else k in current && next[k] == current[k]
  {
    next := kept;
    var i := 0;
    while i < |firing|
      invariant 0 <= i <= |firing|
      invariant forall k :: k in next <==> k in kept || HasKey(firing[..i], k)
      invariant forall k :: k in next ==> if k in kept then next[k] == kept[k] else k in current && next[k] == current[k]
    {
      KeysMore(firing, i);
      assert firing[i] in firing;
      next := next[firing[i].key := firing[i]];
      i := i + 1;
    }
    assert firing[..i] == firing;
  }

  /** The new firing set, made from the old one and what the pass reports. */
  method Update(previous: map<Key, Alert>, t: Transition, ghost current: map<Key, Alert>) returns (next: map<Key, Alert>)
    requires Reports(t, current, previous)
    ensures next == Next(current, previous)
  {
    ListedKeys(t, current, previous);
    next := Drop(previous, t.recovered);
    next := Add(next, t.firing, current);
  }

  /** The reported lists hold each key that changes once. */
  lemma ListedKeys(t: Transition, current: map<Key, Alert>, previous: map<Key, Alert>)
    requires Reports(t, current, previous)
    ensures forall k :: HasKey(t.firing, k) <==> k in current && k !in previous
    ensures forall k :: HasKey(t.recovered, k) <==> k in previous && k !in current
    ensures DistinctKeys(t.firing) && DistinctKeys(t.recovered)
  {
    ListKeys(t.firing, current, current.Keys - previous.Keys);
    ListKeys(t.recovered, AllRecovered(previous), previous.Keys - current.Keys);
  }

  lemma ListKeys(s: seq<Alert>, m: map<Key, Alert>, keys: set<Key>)
    requires Lists(s, m, keys)
    ensures forall k :: HasKey(s, k) <==> k in keys
    ensures DistinctKeys(s)
  {
    forall k | k in keys
      ensures HasKey(s, k)
    {
      var i :| 0 <= i < |s| && s[i] == m[k];
    }
    forall i, j | 0 <= i < j < |s|
      ensures s[i].key != s[j].key
    {
      assert s[i] in s && s[j] in s;
      BeforeTotal(s[i], s[j]);
      BeforeTotal(s[i], s[i]);
    }
    forall k | HasKey(s, k)
      ensures k in keys
    {
      var i :| 0 <= i < |s| && s[i].key == k;
      assert s[i] in s;
    }
  }

  // ---- the journal ----

  /** A recorded transition: an alert, and whether it fired or recovered. */
  datatype Record = Record(alert: Alert, fired: bool)

  /** Does the key fire, as far as the journal says? */
  function FiringIn(journal: seq<Record>, k: Key): bool {
    if journal == [] then false
    else
      var last := journal[|journal| - 1];
      if last.alert.key == k then last.fired else FiringIn(journal[..|journal| - 1], k)
  }

  /** Each key's records alternate, and start with one that it fired. */
  ghost predicate Alternates(journal: seq<Record>) {
    forall i :: 0 <= i < |journal| ==> journal[i].fired != FiringIn(journal[..i], journal[i].alert.key)
  }

  lemma RecordMore(journal: seq<Record>, rec: Record)
    requires Alternates(journal) && rec.fired != FiringIn(journal, rec.alert.key)
    ensures Alternates(journal + [rec])
    ensures forall k :: FiringIn(journal + [rec], k) == if rec.alert.key == k then rec.fired else FiringIn(journal, k)
  {
    var longer := journal + [rec];
    assert longer[..|journal|] == journal;
    assert forall i :: 0 <= i < |journal| ==> longer[..i] == journal[..i] && longer[i] == journal[i];
  }

  /** The records of alerts that all change in the same direction. */
  function Recorded(alerts: seq<Alert>, fired: bool): (r: seq<Record>)
    ensures |r| == |alerts|
  {
    seq(|alerts|, i requires 0 <= i < |alerts| => Record(alerts[i], fired))
  }

  lemma RecordedMore(journal: seq<Record>, alerts: seq<Alert>, fired: bool, i: nat)
    requires i < |alerts|
    ensures journal + Recorded(alerts[..i + 1], fired) == journal + Recorded(alerts[..i], fired) + [Record(alerts[i], fired)]
  {
    assert Recorded(alerts[..i + 1], fired) == Recorded(alerts[..i], fired) + [Record(alerts[i], fired)];
    Seqs.Assoc(journal, Recorded(alerts[..i], fired), [Record(alerts[i], fired)]);
  }

  ghost predicate ChangeTo(journal: seq<Record>, alerts: seq<Alert>, fired: bool) {
    DistinctKeys(alerts) && forall i :: 0 <= i < |alerts| ==> FiringIn(journal, alerts[i].key) != fired
  }

  /** Recording alerts that change keeps the journal alternating. */
  lemma {:induction false} RecordedAll(journal: seq<Record>, alerts: seq<Alert>, fired: bool)
    requires Alternates(journal) && ChangeTo(journal, alerts, fired)
    ensures Alternates(journal + Recorded(alerts, fired))
    ensures forall k :: FiringIn(journal + Recorded(alerts, fired), k) == if HasKey(alerts, k) then fired else FiringIn(journal, k)
  {
    if alerts == [] {
      assert journal + Recorded(alerts, fired) == journal;
    } else {
      var n := |alerts| - 1;
      assert alerts[..n + 1] == alerts;
      RecordedAll(journal, alerts[..n], fired);
      RecordedMore(journal, alerts, fired, n);
      KeysMore(alerts, n);
      assert !HasKey(alerts[..n], alerts[n].key);
      RecordMore(journal + Recorded(alerts[..n], fired), Record(alerts[n], fired));
    }
  }

  /** The journal after a pass. */
  lemma PassRecorded(journal: seq<Record>, t: Transition, current: map<Key, Alert>, previous: map<Key, Alert>)
    requires Alternates(journal) && (forall k :: FiringIn(journal, k) <==> k in previous) && Reports(t, current, previous)
    ensures var after := journal + Recorded(t.firing, true) + Recorded(t.recovered, false);
      Alternates(after) && forall k :: FiringIn(after, k) <==> k in Next(current, previous)
  {
    ListedKeys(t, current, previous);
    assert forall i :: 0 <= i < |t.firing| ==> HasKey(t.firing, t.firing[i].key);
    assert forall i :: 0 <= i < |t.recovered| ==> HasKey(t.recovered, t.recovered[i].key);
    RecordedAll(journal, t.firing, true);
    RecordedAll(journal + Recorded(t.firing, true), t.recovered, false);
  }

  /** What fires is what holds on these channels. */
  ghost predicate HeldOn(firing: map<Key, Alert>, judged: seq<Judged>, previous: map<Key, Alert>, r: Rules) {
    forall k :: k in firing <==> Holds(k, judged, previous, r)
  }

  /** What starts firing is as the pass judged it. */
  lemma NewlyJudged(judged: seq<Judged>, previous: map<Key, Alert>, r: Rules)
    ensures var next := Next(Current(judged, previous, r), previous);
      forall k :: k in next && k !in previous ==> JudgedSo(next[k], judged, previous, r)
  {
    forall k | k in Current(judged, previous, r)
      ensures JudgedSo(Current(judged, previous, r)[k], judged, previous, r)
    {
      CurrentJudged(judged, previous, r, k);
    }
  }

  class Engine {
    var rules: Rules
    var firing: map<Key, Alert>
    var journal: seq<Record>

    /** The journal alternates and says what is firing. */
    ghost predicate Valid()
      reads this
    {
      KeyedRight(firing) && Alternates(journal) && forall k :: FiringIn(journal, k) <==> k in firing
    }

    constructor (r: Rules)
      ensures Valid() && rules == r && firing == map[] && journal == []
    {
      rules, firing, journal := r, map[], [];
    }

    /** A pass over the channels that are judged: what fires afterwards is what holds, an
        alert that keeps firing stays as it was first raised, and every change is recorded
        once. */
    method Evaluate(judged: seq<Judged>) returns (t: Transition)
      requires Valid()
      modifies this
      ensures Valid() && rules == old(rules)
      ensures Reports(t, Current(judged, old(firing), rules), old(firing))
      ensures HeldOn(firing, judged, old(firing), rules)
      ensures firing == Next(Current(judged, old(firing), rules), old(firing))
      ensures forall k :: k in firing && k in old(firing) ==> firing[k] == old(firing)[k]
      ensures forall k :: k in firing && k !in old(firing) ==> JudgedSo(firing[k], judged, old(firing), rules)
      ensures journal == old(journal) + Recorded(t.firing, true) + Recorded(t.recovered, false)
    {
      var previous := firing;
      ghost var current := Current(judged, previous, rules);
      CurrentExactly(judged, previous, rules);
      t := EvaluatePass(judged, previous, rules);
      firing := Update(previous, t, current);
      PassRecorded(journal, t, current, previous);
      NewlyJudged(judged, previous, rules);
      RecordAll(t.firing, true);
      RecordAll(t.recovered, false);
    }

    /** New thresholds leave what is firing alone. */
    method SetThresholds(r: Rules) returns (ok: bool)
      requires Valid()
      modifies this
      ensures Valid() && firing == old(firing) && journal == old(journal)
      ensures ok == ValidRules(r) && rules == if ok then r else old(rules)
    {
      ok := ValidRules(r);
      if ok { rules := r; }
    }

    /** Records alerts that all change in the same direction. */
    method RecordAll(alerts: seq<Alert>, fired: bool)
      modifies `journal
      ensures journal == old(journal) + Recorded(alerts, fired)
    {
      var i := 0;
      while i < |alerts|
        invariant 0 <= i <= |alerts| && journal == old(journal) + Recorded(alerts[..i], fired)
      {
        RecordedMore(old(journal), alerts, fired, i);
        journal := journal + [Record(alerts[i], fired)];
        i := i + 1;
      }
      assert alerts[..i] == alerts;
    }
  }

  ghost predicate HasKey(alerts: seq<Alert>, k: Key) { exists i :: 0 <= i < |alerts| && alerts[i].key == k }

  lemma KeysMore(alerts: seq<Alert>, i: nat)
    requires i < |alerts|
    ensures forall k :: HasKey(alerts[..i + 1], k) <==> HasKey(alerts[..i], k) || alerts[i].key == k
  {
    forall k
      ensures HasKey(alerts[..i + 1], k) <==> HasKey(alerts[..i], k) || alerts[i].key == k
    {
      assert alerts[..i + 1][i] == alerts[i];
      assert forall j :: 0 <= j < i ==> alerts[..i + 1][j] == alerts[..i][j];
    }
  }

  /** What fires after a pass belongs to a channel of its snapshot that may be alerted on. */
  lemma OnlyAlertable(firing: map<Key, Alert>, channels: seq<ChannelSnapshot>, previous: map<Key, Alert>, r: Rules, k: Key)
    requires HeldOn(firing, Judgeable(channels), previous, r) && k in firing
    ensures Alertable(k.channel) && exists c :: c in channels && Trim(c.channel) == k.channel
  {
    var judged := Judgeable(channels);
    var i :| 0 <= i < |judged| && HoldsOn(k, judged[i], k in previous, r);
    SelectedExactly(channels, (c: ChannelSnapshot) => Trim(c.channel), (n: string) => Alertable(n), judged[i]);
    assert judged[i].c in channels;
  }

  // ---- runs of snapshots ----

  /** What fires after a run of snapshots. */
  function FiringAfter(snapshots: seq<seq<Judged>>, r: Rules): map<Key, Alert> {
    if snapshots == [] then map[]
    else
      var before := FiringAfter(snapshots[..|snapshots| - 1], r);
      Next(Current(snapshots[|snapshots| - 1], before, r), before)
  }

  /** It is what holds on the last snapshot, given what fired before it. */
  lemma FiringHeld(snapshots: seq<seq<Judged>>, r: Rules)
    requires snapshots != []
    ensures HeldOn(FiringAfter(snapshots, r), snapshots[|snapshots| - 1], FiringAfter(snapshots[..|snapshots| - 1], r), r)
  {
    CurrentExactly(snapshots[|snapshots| - 1], FiringAfter(snapshots[..|snapshots| - 1], r), r);
  }

  /** However long the run, a rate between the warning threshold and the margin above it
      neither raises nor clears its alert. */
  lemma BandKeepsFiring(snapshots: seq<seq<Judged>>, r: Rules, channel: string)
    requires snapshots != [] && ValidRules(r)
    requires var last := snapshots[|snapshots| - 1];
      && (exists i :: 0 <= i < |last| && last[i].name == channel)
      && forall i :: 0 <= i < |last| && last[i].name == channel ==>
           Adequate(last[i].c, r) && r.warning <= last[i].c.successRate < r.warning + r.clearMargin
    ensures var k := Key(SuccessRate, channel);
      k in FiringAfter(snapshots, r) <==> k in FiringAfter(snapshots[..|snapshots| - 1], r)
  {
    BandKeeps(channel, snapshots[|snapshots| - 1], FiringAfter(snapshots[..|snapshots| - 1], r), r);
  }

  function AllJudgeable(snapshots: seq<seq<ChannelSnapshot>>): (js: seq<seq<Judged>>)
    ensures |js| == |snapshots| && forall i :: 0 <= i < |js| ==> js[i] == Judgeable(snapshots[i])
  {
    seq(|snapshots|, i requires 0 <= i < |snapshots| => Judgeable(snapshots[i]))
  }

  /** Any run of snapshots: the journal alternates and says what is firing, and that is
      what the channels that are judged make fire. */
  method Run(snapshots: seq<seq<ChannelSnapshot>>, r: Rules) returns (engine: Engine)
    ensures engine.Valid()
    ensures engine.firing == FiringAfter(AllJudgeable(snapshots), r)
  {
    engine := RunJudged(AllJudgeable(snapshots), r);
  }

  method RunJudged(snapshots: seq<seq<Judged>>, r: Rules) returns (engine: Engine)
    ensures engine.Valid()
    ensures engine.firing == FiringAfter(snapshots, r)
  {
    engine := new Engine(r);
    var i := 0;
    while i < |snapshots|
      invariant 0 <= i <= |snapshots| && engine.Valid() && engine.rules == r
      invariant engine.firing == FiringAfter(snapshots[..i], r)
    {
      assert snapshots[..i + 1][..i] == snapshots[..i];
      var _ := engine.Evaluate(snapshots[i]);
      i := i + 1;
    }
    assert snapshots[..i] == snapshots;
  }
}
