/** The order in which alerts are reported, and sorting them in place. */
module AlertOrder {
  import opened Alerting

  predicate LexLess(a: string, b: string) {
    if b == "" then false
    else if a == "" then true
    else if a[0] != b[0] then a[0] < b[0]
    else LexLess(a[1..], b[1..])
  }

  lemma {:induction false} LexTotal(a: string, b: string)
    ensures a == b || LexLess(a, b) || LexLess(b, a)
    ensures LexLess(a, b) ==> a != b && !LexLess(b, a)
  {
    if a != "" && b != "" && a[0] == b[0] {
      LexTotal(a[1..], b[1..]);
      assert a == [a[0]] + a[1..] && b == [b[0]] + b[1..];
    }
  }

  lemma {:induction false} LexTransitive(a: string, b: string, c: string)
    requires LexLess(a, b) && LexLess(b, c)
    ensures LexLess(a, c)
  {
    if a != "" && a[0] == b[0] == c[0] {
      LexTransitive(a[1..], b[1..], c[1..]);
    }
  }

  function KindRank(k: Kind): nat { match k case Credential => 0 case PoolEmpty => 1 case SuccessRate => 2 }

  predicate KeyLess(x: Key, y: Key) {
    KindRank(x.kind) < KindRank(y.kind) || (x.kind == y.kind && LexLess(x.channel, y.channel))
  }

  function Rank(s: Severity): nat { match s case Critical => 0 case Warning => 1 }

  /** Critical alerts come first, then the order of keys. */
  predicate Before(x: Alert, y: Alert) {
    Rank(x.severity) < Rank(y.severity) || (Rank(x.severity) == Rank(y.severity) && KeyLess(x.key, y.key))
  }

  lemma BeforeTotal(x: Alert, y: Alert)
    ensures x.key != y.key ==> Before(x, y) || Before(y, x)
    ensures Before(x, y) ==> !Before(y, x)
  {
    LexTotal(x.key.channel, y.key.channel);
  }

  lemma BeforeTransitive(x: Alert, y: Alert, z: Alert)
    requires Before(x, y) && Before(y, z)
    ensures Before(x, z)
  {
    if x.key.kind == y.key.kind == z.key.kind && LexLess(x.key.channel, y.key.channel) && LexLess(y.key.channel, z.key.channel) {
      LexTransitive(x.key.channel, y.key.channel, z.key.channel);
    }
  }

  ghost predicate Ordered(s: seq<Alert>) {
    forall i, j :: 0 <= i < j < |s| ==> Before(s[i], s[j])
  }

  ghost predicate DistinctKeys(s: seq<Alert>) {
    forall i, j :: 0 <= i < j < |s| ==> s[i].key != s[j].key
  }

  /** What sinking `x` from the end of `s` to its place gives. */
  function Inserted(s: seq<Alert>, x: Alert): (r: seq<Alert>)
    ensures |r| == |s| + 1
  {
    if s == [] || !Before(x, s[|s| - 1]) then s + [x] else Inserted(s[..|s| - 1], x) + [s[|s| - 1]]
  }

  function SortedAlerts(s: seq<Alert>): (r: seq<Alert>)
    ensures |r| == |s|
  {
    if s == [] then [] else Inserted(SortedAlerts(s[..|s| - 1]), s[|s| - 1])
  }

  lemma InsertedStep(s: seq<Alert>, x: Alert, j: nat)
    requires 0 < j <= |s| && Before(x, s[j - 1]) && Inserted(s, x) == Inserted(s[..j], x) + s[j..]
    ensures Inserted(s, x) == Inserted(s[..j - 1], x) + s[j - 1..]
  {
    assert s[..j][..j - 1] == s[..j - 1];
    assert [s[j - 1]] + s[j..] == s[j - 1..];
  }

  lemma InsertedEnd(s: seq<Alert>, x: Alert, j: nat)
    requires j <= |s| && (j == 0 || !Before(x, s[j - 1])) && Inserted(s, x) == Inserted(s[..j], x) + s[j..]
    ensures Inserted(s, x) == s[..j] + [x] + s[j..]
  {
  }

  /** One round of the sort: the alert at `i` moves down to its place. */
  method Sink(alerts: array<Alert>, i: nat)
    requires i < alerts.Length
    modifies alerts
    ensures alerts[..i + 1] == Inserted(old(alerts[..i]), old(alerts[i]))
    ensures alerts[i + 1..] == old(alerts[i + 1..])
  {
    ghost var s, x := alerts[..i], alerts[i];
    var j := i;
    assert s[..i] == s && s[i..] == [];
    while j > 0 && Before(alerts[j], alerts[j - 1])
      invariant 0 <= j <= i && alerts[j] == x
      invariant forall k :: 0 <= k < j ==> alerts[k] == s[k]
      invariant forall k :: j < k <= i ==> alerts[k] == s[k - 1]
      invariant Inserted(s, x) == Inserted(s[..j], x) + s[j..]
      invariant alerts[i + 1..] == old(alerts[i + 1..])
    {
      InsertedStep(s, x, j);
      alerts[j], alerts[j - 1] := alerts[j - 1], alerts[j];
      j := j - 1;
    }
    InsertedEnd(s, x, j);
    assert alerts[..i + 1] == s[..j] + [x] + s[j..];
  }

  method SortAlerts(alerts: array<Alert>)
    modifies alerts
    ensures alerts[..] == SortedAlerts(old(alerts[..]))
  {
    ghost var s := alerts[..];
    var i := 0;
    while i < alerts.Length
      invariant 0 <= i <= alerts.Length
      invariant alerts[..i] == SortedAlerts(s[..i]) && alerts[i..] == s[i..]
    {
      assert s[..i + 1][..i] == s[..i] && alerts[i] == alerts[i..][0] == s[i];
      assert alerts[i + 1..] == alerts[i..][1..] && s[i + 1..] == s[i..][1..];
      Sink(alerts, i);
      i := i + 1;
    }
    assert s[..i] == s && alerts[..i] == alerts[..];
  }

  lemma {:induction false} InsertedOrdered(s: seq<Alert>, x: Alert)
    requires Ordered(s) && forall i :: 0 <= i < |s| ==> s[i].key != x.key
    ensures Ordered(Inserted(s, x)) && multiset(Inserted(s, x)) == multiset(s) + multiset{x}
  {
    if s != [] {
      var most, last := s[..|s| - 1], s[|s| - 1];
      assert s == most + [last];
      BeforeTotal(x, last);
      if Before(x, last) {
        InsertedOrdered(most, x);
        var r := Inserted(most, x);
        forall i | 0 <= i < |r|
          ensures Before(r[i], last)
        {
          assert r[i] in multiset(r);
          assert r[i] in most || r[i] == x;
        }
      } else {
        forall i | 0 <= i < |s|
          ensures Before(s[i], x)
        {
          if i < |s| - 1 { BeforeTransitive(s[i], last, x); }
        }
      }
    }
  }

  /** Sorting alerts with different keys orders them and keeps them. */
  lemma {:induction false} SortedOrdered(s: seq<Alert>)
    requires DistinctKeys(s)
    ensures Ordered(SortedAlerts(s)) && multiset(SortedAlerts(s)) == multiset(s)
  {
    if s != [] {
      var most, last := s[..|s| - 1], s[|s| - 1];
      assert s == most + [last];
      SortedOrdered(most);
      forall i | 0 <= i < |SortedAlerts(most)|
        ensures SortedAlerts(most)[i].key != last.key
      {
        assert SortedAlerts(most)[i] in multiset(SortedAlerts(most));
        assert SortedAlerts(most)[i] in most;
      }
      InsertedOrdered(SortedAlerts(most), last);
    }
  }

  lemma HeadOnce(s: seq<Alert>, x: Alert)
    requires Ordered(s) && s != []
    ensures x in s[1..] <==> x in s && x != s[0]
  {
    BeforeTotal(s[0], s[0]);
    assert forall k :: 0 < k < |s| ==> s[1..][k - 1] == s[k] && s[k] != s[0];
  }

  lemma Inhabited(s: seq<Alert>)
    ensures s != [] ==> exists x :: x in s
  {
    if s != [] { assert s[0] in s; }
  }

  /** There is one order for a set of alerts. */
  lemma {:induction false} OneOrder(s: seq<Alert>, t: seq<Alert>)
    requires Ordered(s) && Ordered(t) && forall x :: x in s <==> x in t
    ensures s == t
  {
    if s == [] {
      Inhabited(t);
    } else {
      assert s[0] in t;
      assert t[0] in s;
      BeforeTotal(s[0], t[0]);
      assert s[0] == t[0];
      forall x
        ensures x in s[1..] <==> x in t[1..]
      {
        HeadOnce(s, x);
        HeadOnce(t, x);
      }
      OneOrder(s[1..], t[1..]);
      assert s == [s[0]] + s[1..] && t == [t[0]] + t[1..];
    }
  }
}
