/** How long an account stays out of rotation after upstream verdicts. Times are seconds. */
module RateLimitHold {
  import opened Text

  const RateLimitBase := 30
  const RateLimitMax := 30 * 60
  const CooldownPayment := 24 * 60 * 60
  const CooldownBlocked := 24 * 60 * 60
  const CooldownBlockedGrok := 10 * 60
  const CooldownTransient := 5 * 60
  const CredentialReverify := 30 * 60

  /** A status code: the ones the policy names, and any other, of which only the first
      digit matters. */
  datatype Status = NoStatus | S401 | S402 | S403 | S404 | S429 | QoderExhausted | WorkBuddyExhausted | Other(starts4: bool)

  predicate Starts4(s: Status) { s.S401? || s.S402? || s.S403? || s.S404? || s.S429? || (s.Other? && s.starts4) }

  datatype AccountType = Grok | Qoder | OtherType

  /** Which of the two caps with a deadline of their own a message names. */
  datatype Reason = Reason(inferenceCap: bool, dailyCount: bool)

  const NoReason := Reason(false, false)

  datatype Account = Account(accountType: AccountType, authActive: bool, status: Status, reason: Reason,
    lastAttempt: Option<int>, failures: int, quotaResetAt: Option<int>)

  datatype Verdict = Verdict(status: Status, reason: Reason, needsLogin: bool, cooldown: int, at: int)

  // ---- recording a verdict ----

  function Later(reset: int, quotaResetAt: Option<int>): Option<int> {
    if quotaResetAt.None? || reset > quotaResetAt.value then Some(reset) else quotaResetAt
  }

  function Applied(v: Verdict, a: Account): Account {
    var active := if v.needsLogin then false else if v.status.NoStatus? then true else a.authActive;
    if v.status.NoStatus? then
      a.(authActive := active, status := NoStatus, reason := NoReason, lastAttempt := None, failures := 0)
    else if v.status.S429? then
      a.(authActive := active, status := S429, reason := v.reason, lastAttempt := Some(v.at), failures := a.failures + 1,
         quotaResetAt := if v.cooldown > 0 then Later(v.at + v.cooldown, a.quotaResetAt) else a.quotaResetAt)
    else
      a.(authActive := active, status := v.status, reason := v.reason, lastAttempt := Some(v.at))
  }

  class AccountRecord {
    const accountType: AccountType
    var authActive: bool
    var status: Status
    var reason: Reason
    var lastAttempt: Option<int>
    var failures: int
    var quotaResetAt: Option<int>
    var verifiedAt: Option<int>

    ghost function View(): Account
      reads this
    {
      Account(accountType, authActive, status, reason, lastAttempt, failures, quotaResetAt)
    }

    constructor (a: Account)
      ensures View() == a && verifiedAt == None
    {
      accountType, authActive, status, reason := a.accountType, a.authActive, a.status, a.reason;
      lastAttempt, failures, quotaResetAt, verifiedAt := a.lastAttempt, a.failures, a.quotaResetAt, None;
    }

    method Apply(v: Verdict)
      modifies this
      ensures View() == Applied(v, old(View())) && verifiedAt == Some(v.at)
    {
      status := v.status;
      if v.needsLogin {
        authActive := false;
      } else if status.NoStatus? {
        authActive := true;
      }
      if status.NoStatus? {
        reason := NoReason;
        lastAttempt := None;
        failures := 0;
      } else {
        reason := v.reason;
        lastAttempt := Some(v.at);
        if status.S429? {
          failures := failures + 1;
          if v.cooldown > 0 {
            var reset := v.at + v.cooldown;
            if quotaResetAt.None? || reset > quotaResetAt.value {
              quotaResetAt := Some(reset);
            }
          }
        }
      }
      verifiedAt := Some(v.at);
    }
  }

  // ---- the length of a hold ----

  function Pow2(n: nat): nat { if n == 0 then 1 else 2 * Pow2(n - 1) }

  function Min(a: int, b: int): int { if a < b then a else b }

  function Max(a: int, b: int): int { if a < b then b else a }

  /** 30 seconds, doubled with every further failure, up to 30 minutes. */
  function Backoff(failures: int): int {
    Min(RateLimitBase * Pow2(Max(failures, 1) - 1), RateLimitMax)
  }

  lemma {:induction false} Pow2Grows(m: nat, n: nat)
    requires m <= n
    ensures Pow2(m) <= Pow2(n)
  {
    if m < n { Pow2Grows(m, n - 1); }
  }

  method RateLimitCooldown(failures: int) returns (cooldown: int)
    ensures cooldown == Backoff(failures)
  {
    var k := if failures < 1 then 1 else failures;
    cooldown := RateLimitBase;
    var i := 1;
    while i < k && cooldown < RateLimitMax
      invariant 1 <= i <= k && cooldown == RateLimitBase * Pow2(i - 1)
    {
      cooldown := cooldown * 2;
      i := i + 1;
    }
    Pow2Grows(i - 1, k - 1);
    if cooldown > RateLimitMax {
      cooldown := RateLimitMax;
    }
  }

  function CooldownFor(a: Account): int {
    match a.status
    case S401 => CredentialReverify
    case S429 => Backoff(a.failures)
    case S402 => CooldownPayment
    case S403 => if a.accountType.Grok? then CooldownBlockedGrok else CooldownBlocked
    case S404 => if a.accountType.Grok? then CooldownBlockedGrok else CooldownBlocked
    case _ => CooldownTransient
  }

  /** A cap whose recorded deadline is taken at its word. */
  predicate NamedCap(a: Account) { a.reason.inferenceCap || (a.accountType.Qoder? && a.reason.dailyCount) }

  /** Is the account still withheld? */
  method AccountHeld(a: Account, now: int) returns (held: bool)
    ensures held == Held(a, now)
  {
    if !a.authActive {
      return true;
    }
    if a.status.NoStatus? || a.status.QoderExhausted? || a.status.WorkBuddyExhausted? {
      return false;
    }
    if a.lastAttempt.None? {
      return true;
    }
    var until := a.lastAttempt.value + CooldownFor(a);
    if a.quotaResetAt.Some? && a.quotaResetAt.value > until {
      if a.status.S429? {
        var ceiling := a.lastAttempt.value + RateLimitMax;
        if NamedCap(a) {
          until := a.quotaResetAt.value;
        } else if ceiling < a.quotaResetAt.value {
          until := ceiling;
        } else {
          until := a.quotaResetAt.value;
        }
      } else if a.status.S402? || !Starts4(a.status) {
        until := a.quotaResetAt.value;
      }
    }
    held := now < until;
  }

  /** How far beyond the last attempt a recorded deadline can reach: not at all for a
      definitive block, 30 minutes for a rate limit that is no named cap, and any distance
      otherwise. */
  function Reach(a: Account): Option<int> {
    if a.quotaResetAt.None? || a.lastAttempt.None? then None
    else if a.status.S429? then
      Some(if NamedCap(a) then a.quotaResetAt.value else Min(a.quotaResetAt.value, a.lastAttempt.value + RateLimitMax))
    else if a.status.S402? || !Starts4(a.status) then a.quotaResetAt
    else None
  }

  ghost predicate Held(a: Account, now: int) {
    || !a.authActive
    || (!(a.status.NoStatus? || a.status.QoderExhausted? || a.status.WorkBuddyExhausted?)
        && (a.lastAttempt.None? || now < a.lastAttempt.value + CooldownFor(a) || (Reach(a).Some? && now < Reach(a).value)))
  }

  // ---- runs of verdicts ----

  function Run(a: Account, vs: seq<Verdict>): Account {
    if vs == [] then a else Applied(vs[|vs| - 1], Run(a, vs[..|vs| - 1]))
  }

  /** Rate limits since the last verdict that cleared the account. */
  function LimitsSinceClear(vs: seq<Verdict>, before: int): int {
    if vs == [] then before
    else
      var v := vs[|vs| - 1];
      if v.status.NoStatus? then 0
      else LimitsSinceClear(vs[..|vs| - 1], before) + if v.status.S429? then 1 else 0
  }

  lemma {:induction false} FailuresCount(a: Account, vs: seq<Verdict>)
    ensures Run(a, vs).failures == LimitsSinceClear(vs, a.failures)
    ensures vs != [] ==>
      && Run(a, vs).status == vs[|vs| - 1].status
      && Run(a, vs).reason == (if vs[|vs| - 1].status.NoStatus? then NoReason else vs[|vs| - 1].reason)
    ensures vs != [] && !vs[|vs| - 1].status.NoStatus? ==> Run(a, vs).lastAttempt == Some(vs[|vs| - 1].at)
    ensures Run(a, vs).accountType == a.accountType
  {
    if vs != [] { FailuresCount(a, vs[..|vs| - 1]); }
  }

  /** After any run of verdicts that ends with a rate limit, the k-th since the account was
      last clear, the account is held for at least 30 seconds times 2 to the k-1, up to 30
      minutes; and for at most 30 minutes, whatever deadline is recorded, unless the
      message names one of the two caps. */
  lemma RateLimitHeld(a: Account, vs: seq<Verdict>, now: int)
    requires vs != [] && vs[|vs| - 1].status.S429? && Run(a, vs).authActive
    ensures var last := vs[|vs| - 1];
      && (now < last.at + Backoff(LimitsSinceClear(vs, a.failures)) ==> Held(Run(a, vs), now))
      && (Held(Run(a, vs), now) ==> now < last.at + RateLimitMax || NamedCap(Run(a, vs)))
  {
    FailuresCount(a, vs);
  }

  /** A retry-after of up to 30 minutes is honoured in full, whatever was recorded before. */
  lemma RetryAfterHonoured(a: Account, v: Verdict, now: int)
    requires v.status.S429? && v.cooldown > 0 && v.at <= now < v.at + Min(v.cooldown, RateLimitMax)
    ensures Held(Applied(v, a), now)
  {
  }

  /** A recorded deadline never changes how long a definitive block lasts. */
  lemma BlockKept(a: Account, deadline: Option<int>, now: int)
    requires a.authActive && a.lastAttempt.Some? && (a.status.S401? || a.status.S403? || a.status.S404?)
    ensures Held(a.(quotaResetAt := deadline), now) <==> now < a.lastAttempt.value + CooldownFor(a)
  {
  }

  /** A refused credential holds for 30 minutes; a block for a day, or for 10 minutes at
      Grok; and payment for a day, unless a later deadline is recorded. */
  lemma BlocksLast(a: Account, now: int)
    requires a.authActive && a.lastAttempt.Some?
    ensures var since := now - a.lastAttempt.value;
      && (a.status.S401? ==> (Held(a, now) <==> since < 1800))
      && (a.status.S403? || a.status.S404? ==> (Held(a, now) <==> since < if a.accountType.Grok? then 600 else 86400))
      && (a.status.S402? ==> (Held(a, now) <==> since < 86400 || (a.quotaResetAt.Some? && now < a.quotaResetAt.value)))
  {
  }

  /** Without a login an account is held whatever its status; a used-up quota that has a
      status of its own does not hold it; and an account whose last attempt is not known
      is held by any other status. */
  lemma OtherwiseHeld(a: Account, now: int)
    ensures !a.authActive ==> Held(a, now)
    ensures a.authActive && (a.status.NoStatus? || a.status.QoderExhausted? || a.status.WorkBuddyExhausted?) ==> !Held(a, now)
    ensures a.authActive && a.lastAttempt.None? ==>
      (Held(a, now) <==> !(a.status.NoStatus? || a.status.QoderExhausted? || a.status.WorkBuddyExhausted?))
  {
  }

  /** A success ends every hold, and puts the account back to its first back-off. */
  lemma SuccessReleases(a: Account, at: int, now: int, limited: Verdict)
    requires limited.status.S429?
    ensures var clear := Applied(Verdict(NoStatus, NoReason, false, 0, at), a);
      !Held(clear, now) && Backoff(Applied(limited, clear).failures) == RateLimitBase
  {
    assert Pow2(0) == 1;
  }

  /** The two caps with a deadline of their own are held until it, however far away. */
  lemma NamedCapHeld(a: Account, now: int)
    requires a.authActive && a.status.S429? && NamedCap(a) && a.lastAttempt.Some? && a.quotaResetAt.Some?
    ensures Held(a, now) <==> now < Max(a.quotaResetAt.value, a.lastAttempt.value + Backoff(a.failures))
  {
  }
}
