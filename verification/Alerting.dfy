/** Alerts and recoveries out of operations snapshots. */
module Alerting {
  import opened Text

  datatype Severity = Critical | Warning

  /** What is known of one channel. Rates are ratios. */
  datatype ChannelSnapshot = ChannelSnapshot(channel: string, requests: int, failed: int, samples: int, successRate: real,
    accountsEnabled: int, accountsAvailable: int, accountsNeedingLogin: int)

  /** The three conditions, in the order of the words their keys start with. */
  datatype Kind = Credential | PoolEmpty | SuccessRate

  /** A key is stable across passes: a condition and a channel. */
  datatype Key = Key(kind: Kind, channel: string)

  /** An alert, with the snapshot it was raised on; one that is reported as recovered says so. */
  datatype Alert = Alert(key: Key, severity: Severity, evidence: ChannelSnapshot, recovered: bool)

  datatype Rules = Rules(minRequests: int, minFailures: int, warning: real, critical: real, clearMargin: real, poolRule: bool)

  predicate ValidRules(r: Rules) {
    && r.minRequests >= 0 && r.minFailures >= 0
    && 0.0 < r.warning <= 1.0 && 0.0 < r.critical < r.warning
    && r.warning + r.clearMargin <= 1.0 && 0.0 <= r.clearMargin <= 0.5
  }

  /** The aggregate channels that no alert is ever raised on are left out. */
  datatype Judged = Judged(name: string, c: ChannelSnapshot)

  predicate Alertable(name: string) {
    var n := Lower(Trim(name));
    n != "" && n != "http" && n != "probe"
  }

  function Select(channels: seq<ChannelSnapshot>, name: ChannelSnapshot -> string, alertable: string -> bool): seq<Judged> {
    if channels == [] then []
    else
      var c := channels[|channels| - 1];
      Select(channels[..|channels| - 1], name, alertable)
      + if name(c) != "" && alertable(name(c)) then [Judged(name(c), c)] else []
  }

  function Judgeable(channels: seq<ChannelSnapshot>): seq<Judged> {
    Select(channels, (c: ChannelSnapshot) => Trim(c.channel), (n: string) => Alertable(n))
  }

  /** Judged are the channels with a name that may be alerted on. */
  lemma {:induction false} SelectedExactly(channels: seq<ChannelSnapshot>, name: ChannelSnapshot -> string, alertable: string -> bool, j: Judged)
    ensures j in Select(channels, name, alertable) <==> j.c in channels && j.name == name(j.c) && j.name != "" && alertable(j.name)
  {
    if channels != [] {
      SelectedExactly(channels[..|channels| - 1], name, alertable, j);
      assert channels == channels[..|channels| - 1] + [channels[|channels| - 1]];
    }
  }

  // ---- conditions ----

  function AtLeastOne(n: int): int { if n <= 0 then 1 else n }

  function Margin(r: Rules): real { if r.clearMargin < 0.0 then 0.0 else r.clearMargin }

  /** Enough real traffic for a rate to mean something. */
  predicate Adequate(c: ChannelSnapshot, r: Rules) { c.requests >= AtLeastOne(r.minRequests) && c.samples > 0 }

  /** The severity of the condition on this channel, if it holds. */
  function Judgement(kind: Kind, c: ChannelSnapshot, wasFiring: bool, r: Rules): Option<Severity> {
    match kind
    case Credential => if c.accountsNeedingLogin > 0 then Some(Critical) else None
    case PoolEmpty => if r.poolRule && c.accountsEnabled > 0 && c.accountsAvailable == 0 then Some(Critical) else None
    case SuccessRate =>
      if !Adequate(c, r) then None
      else
        var severe := c.successRate < r.critical;
        var enoughFailures := severe || wasFiring || c.failed >= AtLeastOne(r.minFailures);
        var held := wasFiring && c.successRate < r.warning + Margin(r);
        if severe then Some(Critical)
        else if enoughFailures && (c.successRate < r.warning || held) then Some(Warning)
        else None
  }

  /** Critical are an account that must log in again, a pool without an available account
      where that is a rule, and a rate below the critical threshold; a warning is only ever
      about a rate. */
  lemma SeveritiesExactly(kind: Kind, c: ChannelSnapshot, wasFiring: bool, r: Rules)
    ensures Judgement(kind, c, wasFiring, r) == Some(Critical) <==>
      || (kind == Credential && c.accountsNeedingLogin > 0)
      || (kind == PoolEmpty && r.poolRule && c.accountsEnabled > 0 && c.accountsAvailable == 0)
      || (kind == SuccessRate && Adequate(c, r) && c.successRate < r.critical)
    ensures Judgement(kind, c, wasFiring, r) == Some(Warning) ==> kind == SuccessRate && c.successRate >= r.critical
  {
  }

  /** With valid rules a rate alert is raised on a severe rate, or on a bad one with enough
      failures, and once raised stays until the rate has cleared the warning threshold by
      the margin or there is too little traffic to tell. */
  lemma RateJudged(c: ChannelSnapshot, wasFiring: bool, r: Rules)
    requires ValidRules(r)
    ensures Judgement(SuccessRate, c, wasFiring, r).Some? <==>
      (Adequate(c, r) &&
       if wasFiring then c.successRate < r.warning + r.clearMargin
       else c.successRate < r.critical || (c.failed >= AtLeastOne(r.minFailures) && c.successRate < r.warning))
  {
  }

  /** The keys whose condition holds on some channel. */
  ghost predicate Holds(k: Key, channels: seq<Judged>, previous: map<Key, Alert>, r: Rules) {
    exists i :: 0 <= i < |channels| && HoldsOn(k, channels[i], k in previous, r)
  }

  predicate HoldsOn(k: Key, j: Judged, wasFiring: bool, r: Rules) {
    j.name == k.channel && Judgement(k.kind, j.c, wasFiring, r).Some?
  }

  function Raise(current: map<Key, Alert>, kind: Kind, j: Judged, previous: map<Key, Alert>, r: Rules): map<Key, Alert> {
    var k := Key(kind, j.name);
    var severity := Judgement(kind, j.c, k in previous, r);
    if severity.None? then current else current[k := Alert(k, severity.value, j.c, false)]
  }

  function RaiseAll(current: map<Key, Alert>, j: Judged, previous: map<Key, Alert>, r: Rules): map<Key, Alert> {
    Raise(Raise(Raise(current, Credential, j, previous, r), PoolEmpty, j, previous, r), SuccessRate, j, previous, r)
  }

  function Current(channels: seq<Judged>, previous: map<Key, Alert>, r: Rules): map<Key, Alert> {
    if channels == [] then map[]
    else RaiseAll(Current(channels[..|channels| - 1], previous, r), channels[|channels| - 1], previous, r)
  }

  ghost predicate KeyedRight(m: map<Key, Alert>) { forall k :: k in m ==> m[k].key == k && !m[k].recovered }

  lemma RaisedExactly(current: map<Key, Alert>, j: Judged, previous: map<Key, Alert>, r: Rules, k: Key)
    ensures k in RaiseAll(current, j, previous, r) <==> (k in current || HoldsOn(k, j, k in previous, r))
    ensures KeyedRight(current) ==> KeyedRight(RaiseAll(current, j, previous, r))
  {
    assert k == Key(k.kind, k.channel);
  }

  /** The current alerts are those whose condition holds. */
  lemma {:induction false} CurrentExactly(channels: seq<Judged>, previous: map<Key, Alert>, r: Rules)
    ensures KeyedRight(Current(channels, previous, r))
    ensures forall k :: k in Current(channels, previous, r) <==> Holds(k, channels, previous, r)
  {
    if channels != [] {
      var most, last := channels[..|channels| - 1], channels[|channels| - 1];
      CurrentExactly(most, previous, r);
      RaisedExactly(Current(most, previous, r), last, previous, r, Key(Credential, ""));
      forall k
        ensures k in Current(channels, previous, r) <==> Holds(k, channels, previous, r)
      {
        RaisedExactly(Current(most, previous, r), last, previous, r, k);
        HoldsMore(k, channels, previous, r);
      }
    }
  }

  /** Is this what one of the channels is judged to be? */
  ghost predicate JudgedSo(a: Alert, channels: seq<Judged>, previous: map<Key, Alert>, r: Rules) {
    exists i :: 0 <= i < |channels| && JudgedOn(a, channels[i], previous, r)
  }

  predicate JudgedOn(a: Alert, j: Judged, previous: map<Key, Alert>, r: Rules) {
    j.name == a.key.channel && a.evidence == j.c && Judgement(a.key.kind, j.c, a.key in previous, r) == Some(a.severity)
  }

  lemma RaisedJudged(current: map<Key, Alert>, j: Judged, previous: map<Key, Alert>, r: Rules, k: Key)
    requires KeyedRight(current) && k in RaiseAll(current, j, previous, r)
    ensures var a := RaiseAll(current, j, previous, r)[k]; a.key == k && (JudgedOn(a, j, previous, r) || (k in current && a == current[k]))
  {
    RaisedExactly(current, j, previous, r, k);
  }

  /** A current alert has the severity, and shows the counters, of a channel on which its
      condition holds. */
  lemma {:induction false} CurrentJudged(channels: seq<Judged>, previous: map<Key, Alert>, r: Rules, k: Key)
    requires k in Current(channels, previous, r)
    ensures JudgedSo(Current(channels, previous, r)[k], channels, previous, r)
  {
    var most, last := channels[..|channels| - 1], channels[|channels| - 1];
    CurrentExactly(most, previous, r);
    RaisedJudged(Current(most, previous, r), last, previous, r, k);
    if !JudgedOn(Current(channels, previous, r)[k], last, previous, r) {
      CurrentJudged(most, previous, r, k);
      assert forall i :: 0 <= i < |most| ==> channels[i] == most[i];
    }
  }

  lemma HoldsMore(k: Key, channels: seq<Judged>, previous: map<Key, Alert>, r: Rules)
    requires channels != []
    ensures Holds(k, channels, previous, r) <==>
      (Holds(k, channels[..|channels| - 1], previous, r) || HoldsOn(k, channels[|channels| - 1], k in previous, r))
  {
    var most := channels[..|channels| - 1];
    assert forall i :: 0 <= i < |most| ==> channels[i] == most[i];
    if Holds(k, most, previous, r) {
      var i :| 0 <= i < |most| && HoldsOn(k, most[i], k in previous, r);
      assert HoldsOn(k, channels[i], k in previous, r);
    }
    if i :| 0 <= i < |most| && HoldsOn(k, channels[i], k in previous, r) {
      assert HoldsOn(k, most[i], k in previous, r);
    }
  }

  /** A rate between the warning threshold and the margin above it changes nothing: its
      alert fires exactly if it was firing. */
  lemma BandKeeps(channel: string, channels: seq<Judged>, previous: map<Key, Alert>, r: Rules)
    requires ValidRules(r)
    requires exists i :: 0 <= i < |channels| && channels[i].name == channel
    requires forall i :: 0 <= i < |channels| && channels[i].name == channel ==>
      Adequate(channels[i].c, r) && r.warning <= channels[i].c.successRate < r.warning + r.clearMargin
    ensures var k := Key(SuccessRate, channel); k in Current(channels, previous, r) <==> k in previous
  {
    var k := Key(SuccessRate, channel);
    CurrentExactly(channels, previous, r);
    forall i | 0 <= i < |channels| && channels[i].name == channel
      ensures HoldsOn(k, channels[i], k in previous, r) <==> k in previous
    {
      RateJudged(channels[i].c, k in previous, r);
    }
    var i :| 0 <= i < |channels| && channels[i].name == channel;
    assert HoldsOn(k, channels[i], k in previous, r) <==> k in previous;
  }

  /** The loop over the channels. */
  method Judge(channels: seq<Judged>, previous: map<Key, Alert>, r: Rules) returns (current: map<Key, Alert>)
    ensures current == Current(channels, previous, r)
  {
    current := map[];
    var k := 0;
    while k < |channels|
      invariant 0 <= k <= |channels| && current == Current(channels[..k], previous, r)
    {
      assert channels[..k + 1][..k] == channels[..k];
      var j := channels[k];
      current := Raise(current, Credential, j, previous, r);
      current := Raise(current, PoolEmpty, j, previous, r);
      current := Raise(current, SuccessRate, j, previous, r);
      k := k + 1;
    }
    assert channels[..k] == channels;
  }
}
