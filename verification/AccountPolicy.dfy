/** internal/accountpolicy/policy.go: how long an account is withheld after an upstream result.

    Times are whole seconds, and 0 is the zero `time.Time`.  Accounts carry no WorkBuddy
    restriction. */
module AccountPolicy {
  import opened Text

  const MINUTE := 60
  const RATE_LIMIT_BASE := 30
  const RATE_LIMIT_MAX := 30 * MINUTE

  /** `message` stands for the reason; what the policy asks of it is whether it states an inference cap. */
  datatype Verdict = Verdict(status: string, inferenceCap: bool, needsLogin: bool, cooldown: int, at: int)

  datatype Channel = Grok | WorkBuddy | OtherChannel

  datatype AccountState = AccountState(
    channel: Channel, status: string, inferenceCap: bool, authActive: bool,
    lastAttempt: int, rateLimitFailures: int, quotaResetAt: int, verifiedAt: int)

  const QUOTA_EXHAUSTED := "workbuddy_quota_exhausted"

  // ----- cooldowns -----

  function Power2(n: nat): (p: nat)
    ensures p >= 1
  {
    if n == 0 then 1 else 2 * Power2(n - 1)
  }

  function Min(a: int, b: int): int { if a <= b then a else b }

  /** 30s, 1m, 2m, ... but never more than half an hour. */
  function RateLimitWait(failures: int): int {
    Min(RATE_LIMIT_BASE * Power2(if failures < 1 then 0 else failures - 1), RATE_LIMIT_MAX)
  }

  lemma {:induction false} Power2Grows(m: nat, n: nat)
    requires m <= n
    ensures Power2(m) <= Power2(n)
  {
    if m < n { Power2Grows(m, n - 1); }
  }

  method RateLimitCooldown(failures: int) returns (cooldown: int)
    ensures cooldown == RateLimitWait(failures)
  {
    var n := if failures < 1 then 1 else failures;
    cooldown := RATE_LIMIT_BASE;
    var i := 1;
    while i < n && cooldown < RATE_LIMIT_MAX
      invariant 1 <= i <= n && cooldown == RATE_LIMIT_BASE * Power2(i - 1)
    {
      cooldown := cooldown * 2;
      i := i + 1;
    }
    Power2Grows(i - 1, n - 1);
    if cooldown > RATE_LIMIT_MAX {
      cooldown := RATE_LIMIT_MAX;
    }
  }

  lemma WaitGrows(m: int, n: int)
    requires m <= n
    ensures RATE_LIMIT_BASE <= RateLimitWait(m) <= RateLimitWait(n) <= RATE_LIMIT_MAX
  {
    Power2Grows(if m < 1 then 0 else m - 1, if n < 1 then 0 else n - 1);
  }

  /** `CooldownFor` */
  function CooldownFor(a: AccountState): int {
    var s := Trim(a.status);
    if s == "401" then 30 * MINUTE
    else if s == "429" then RateLimitWait(a.rateLimitFailures)
    else if s == "402" then 24 * 60 * MINUTE
    else if s == "403" || s == "404" then if a.channel.Grok? then 10 * MINUTE else 24 * 60 * MINUTE
    else 5 * MINUTE
  }

  // ----- holding -----

  /** The moment up to which an account with a status is withheld. */
  function Deadline(a: AccountState): int {
    var s := Trim(a.status);
    var until := a.lastAttempt + CooldownFor(a);
    var ceiling := a.lastAttempt + RATE_LIMIT_MAX;
    if a.quotaResetAt <= until then until
    else if s == "429" then
      if a.inferenceCap then a.quotaResetAt
      else if ceiling < a.quotaResetAt then if a.channel.WorkBuddy? then until else ceiling
      else a.quotaResetAt
    else if s == "402" || !("4" <= s) then a.quotaResetAt
    else until
  }

  function Bounded(retryAfter: int): int { if retryAfter <= 0 then retryAfter else Min(retryAfter, RATE_LIMIT_MAX) }

  class Account {
    var state: AccountState

    constructor (channel: Channel)
      ensures state == Idle(channel)
    {
      state := Idle(channel);
    }

    /** `Verdict.Apply` */
    method Apply(v: Verdict, now: int)
      modifies this
      ensures state == Applied(old(state), v, now)
      ensures
        var (at, s) := (if v.at == 0 then now else v.at, Trim(v.status));
        && state.status == s && state.verifiedAt == at && state.lastAttempt == (if s == "" then 0 else at)
        && (state.authActive <==> !v.needsLogin && (s == "" || old(state.authActive)))
        && (state.inferenceCap <==> s != "" && v.inferenceCap)
        && state.rateLimitFailures == (if s == "" then 0 else old(state.rateLimitFailures) + if s == "429" then 1 else 0)
        && state.quotaResetAt ==
           if s == "429" && v.cooldown > 0 && at + v.cooldown > old(state.quotaResetAt) then at + v.cooldown
           else old(state.quotaResetAt)
    {
      var at := if v.at == 0 then now else v.at;
      var status := Trim(v.status);
      var authActive := state.authActive;
      if v.needsLogin {
        authActive := false;
      } else if status == "" {
        authActive := true;
      }
      state := state.(status := status, authActive := authActive);
      if status == "" {
        state := state.(inferenceCap := false, lastAttempt := 0, rateLimitFailures := 0);
      } else {
        state := state.(inferenceCap := v.inferenceCap, lastAttempt := at);
        if status == "429" {
          state := state.(rateLimitFailures := state.rateLimitFailures + 1);
          if v.cooldown > 0 && at + v.cooldown > state.quotaResetAt {
            state := state.(quotaResetAt := at + v.cooldown);
          }
        }
      }
      state := state.(verifiedAt := at);
    }

    /** `AccountHeld` */
    method Held(now: int) returns (held: bool)
      ensures held == IsHeld(state, now)
      ensures held <==> (
        || !state.authActive
        || (Trim(state.status) != "" && Trim(state.status) != "workbuddy_quota_exhausted"
            && (state.lastAttempt == 0 || now < Deadline(state))))
    {
      if !state.authActive {
        return true;
      }
      var status := Trim(state.status);
      if status == "" || status == QUOTA_EXHAUSTED {
        return false;
      }
      if state.lastAttempt == 0 {
        return true;
      }
      var until := state.lastAttempt + CooldownFor(state);
      if state.quotaResetAt > until {
        if status == "429" {
          var ceiling := state.lastAttempt + RATE_LIMIT_MAX;
          if state.inferenceCap {
            until := state.quotaResetAt;
          } else if ceiling < state.quotaResetAt {
            if !state.channel.WorkBuddy? {
              until := ceiling;
            }
          } else {
            until := state.quotaResetAt;
          }
        } else if status == "402" || !("4" <= status) {
          until := state.quotaResetAt;
        }
      }
      return now < until;
    }
  }

  function Idle(channel: Channel): AccountState { AccountState(channel, "", false, true, 0, 0, 0, 0) }

  function At(v: Verdict, now: int): int { if v.at == 0 then now else v.at }

  function Applied(a: AccountState, v: Verdict, now: int): AccountState {
    var (at, status) := (At(v, now), Trim(v.status));
    var b := a.(status := status, verifiedAt := at, authActive := !v.needsLogin && (status == "" || a.authActive));
    if status == "" then b.(inferenceCap := false, lastAttempt := 0, rateLimitFailures := 0)
    else
      var c := b.(inferenceCap := v.inferenceCap, lastAttempt := at);
      if status != "429" then c
      else
        c.(rateLimitFailures := a.rateLimitFailures + 1,
           quotaResetAt := if v.cooldown > 0 && at + v.cooldown > a.quotaResetAt then at + v.cooldown else a.quotaResetAt)
  }

  predicate IsHeld(a: AccountState, now: int) {
    || !a.authActive
    || (Trim(a.status) != "" && Trim(a.status) != QUOTA_EXHAUSTED && (a.lastAttempt == 0 || now < Deadline(a)))
  }

  lemma WaitsAre(failures: int)
    ensures RateLimitWait(failures) ==
      if failures <= 1 then 30
      else if failures == 2 then 60
      else if failures == 3 then 120
      else if failures == 4 then 240
      else if failures == 5 then 480
      else if failures == 6 then 960
      else 1800
  {
    assert Power2(2) == 4 && Power2(3) == 8 && Power2(4) == 16;
    assert Power2(5) == 2 * Power2(4) && Power2(6) == 2 * Power2(5);
    if failures > 7 { Power2Grows(6, failures - 1); }
  }

  /** For how long each status withholds an account, in seconds. */
  lemma CooldownsAre(a: AccountState)
    ensures var s := Trim(a.status);
      && (s == "401" ==> CooldownFor(a) == 1800)
      && (s == "402" ==> CooldownFor(a) == 86400)
      && (s == "403" || s == "404" ==> CooldownFor(a) == if a.channel == Grok then 600 else 86400)
      && (s == "429" ==> CooldownFor(a) == RateLimitWait(a.rateLimitFailures))
      && (s != "401" && s != "402" && s != "403" && s != "404" && s != "429" ==> CooldownFor(a) == 300)
  {
  }

  /** Which recorded resets count: a later one extends a payment block and a server fault, and never a
      definitive block or any other client error. */
  lemma DeadlinesAre(a: AccountState)
    ensures var (s, t, reset) := (Trim(a.status), a.lastAttempt, a.quotaResetAt);
      && (s == "401" ==> Deadline(a) == t + 1800)
      && (s == "402" ==> Deadline(a) == if reset > t + 86400 then reset else t + 86400)
      && (s == "403" || s == "404" ==> Deadline(a) == t + if a.channel == Grok then 600 else 86400)
      && (|s| > 0 && s[0] == '4' && s != "401" && s != "402" && s != "403" && s != "404" && s != "429" ==> Deadline(a) == t + 300)
      && (|s| > 0 && s[0] != '4' ==> Deadline(a) == if reset > t + 300 then reset else t + 300)
  {
    var s := Trim(a.status);
    CooldownsAre(a);
    assert |s| > 0 ==> ("4" <= s <==> s[0] == '4');
  }

  /** A rate limit's reset counts up to half an hour; a later one is cut to that, or on WorkBuddy not
      looked at, but an inference cap's counts in full. */
  lemma RateLimitDeadlinesAre(a: AccountState)
    requires Trim(a.status) == "429"
    ensures var (until, ceiling) := (a.lastAttempt + RateLimitWait(a.rateLimitFailures), a.lastAttempt + 1800);
      && (a.quotaResetAt <= until ==> Deadline(a) == until)
      && (a.quotaResetAt > until && (a.inferenceCap || a.quotaResetAt <= ceiling) ==> Deadline(a) == a.quotaResetAt)
      && (a.quotaResetAt > ceiling && !a.inferenceCap ==> Deadline(a) == if a.channel == WorkBuddy then until else ceiling)
  {
    WaitGrows(a.rateLimitFailures, a.rateLimitFailures);
  }

  // ----- whole runs -----

  datatype Event = Event(verdict: Verdict, now: int)

  function After(a: AccountState, events: seq<Event>): AccountState {
    if events == [] then a
    else
      var last := events[|events| - 1];
      Applied(After(a, events[..|events| - 1]), last.verdict, last.now)
  }

  /** The rate limits since the last healthy result. */
  function RateLimits(events: seq<Event>): nat {
    if events == [] then 0
    else
      var (before, status) := (RateLimits(events[..|events| - 1]), Trim(events[|events| - 1].verdict.status));
      if status == "" then 0 else if status == "429" then before + 1 else before
  }

  lemma {:induction false} FailuresAreRateLimits(channel: Channel, events: seq<Event>)
    ensures var a := After(Idle(channel), events);
            && a.rateLimitFailures == RateLimits(events) && a.channel == channel
            && (events != [] ==>
                  var last := events[|events| - 1];
                  && a.status == Trim(last.verdict.status)
                  && (a.status != "" ==> a.lastAttempt == At(last.verdict, last.now) && a.inferenceCap == last.verdict.inferenceCap))
  {
    if events != [] { FailuresAreRateLimits(channel, events[..|events| - 1]); }
  }

  lemma TrimTwice(s: string)
    ensures Trim(Trim(s)) == Trim(s)
  {
    TrimIsTrimmed(s);
    TrimIsTrimmed(Trim(s));
  }

  /** Whatever else an account records, a rate limit has one deadline within its window. */
  lemma DeadlineIsBounded(a: AccountState)
    requires a.authActive && Trim(a.status) == "429" && !a.inferenceCap && a.lastAttempt != 0
    ensures a.lastAttempt + RateLimitWait(a.rateLimitFailures) <= Deadline(a) <= a.lastAttempt + RATE_LIMIT_MAX
    ensures forall now :: IsHeld(a, now) <==> now < Deadline(a)
  {
    WaitGrows(a.rateLimitFailures, a.rateLimitFailures);
  }

  /** After any run of verdicts that ends in a rate limit, an account that is authorized is withheld
      up to one moment and free from then on: no sooner than the doubling cooldown for the number of
      rate limits since the last healthy result, and no later than half an hour, whatever was
      recorded before. */
  lemma RateLimitHasOneDeadline(channel: Channel, events: seq<Event>)
    requires events != []
    requires var last := events[|events| - 1];
             Trim(last.verdict.status) == "429" && !last.verdict.inferenceCap && At(last.verdict, last.now) != 0
    requires After(Idle(channel), events).authActive
    ensures var (a, t) := (After(Idle(channel), events), At(events[|events| - 1].verdict, events[|events| - 1].now));
            && t + RateLimitWait(RateLimits(events)) <= Deadline(a) <= t + RATE_LIMIT_MAX
            && (forall now :: IsHeld(a, now) <==> now < Deadline(a))
  {
    FailuresAreRateLimits(channel, events);
    TrimTwice(events[|events| - 1].verdict.status);
    DeadlineIsBounded(After(Idle(channel), events));
  }

  /** An upstream's own reset, within the policy's bound, is honoured to the second. */
  lemma BoundedResetIsHonoured(channel: Channel, events: seq<Event>, v: Verdict, now: int)
    requires Trim(v.status) == "429" && !v.inferenceCap && At(v, now) != 0
    requires 0 < v.cooldown == Bounded(v.cooldown)
    requires var a := After(Idle(channel), events); a.authActive && !v.needsLogin && a.quotaResetAt <= At(v, now) + v.cooldown
    ensures var (a, n) := (Applied(After(Idle(channel), events), v, now), RateLimits(events) + 1);
            Deadline(a) == At(v, now) + (if v.cooldown > RateLimitWait(n) then v.cooldown else RateLimitWait(n))
  {
    FailuresAreRateLimits(channel, events);
    WaitGrows(RateLimits(events) + 1, RateLimits(events) + 1);
    TrimTwice(v.status);
  }
}
