/** internal/grok/cli_refresh_schedule.go: when a failed token refresh is tried again, and when the
    account needs a new login.  Times are seconds; a zero `time.Time` is `None`. */
module RefreshSchedule {
  import opened Text
  import C = CliOAuth

  datatype Class = Permanent | Configuration | Unclassified | Transient

  /** `store.GrokRefreshState` */
  datatype RefreshState = RefreshState(
    failures: nat, sameErrorCount: nat, errorClass: Option<Class>, errorCode: string, retryAt: Option<int>, updatedAt: Option<int>)

  const CLEAN := RefreshState(0, 0, None, "", None, None)

  const BASE_LEAD := 300
  const CONFIGURATION_RETRY := 1800
  const UNCLASSIFIED_LIMIT := 5

  // ----- backoff -----

  /** Go's `%`, which takes the sign of its left operand. */
  function Remainder(a: int, b: int): int
    requires b > 0
  {
    if a >= 0 then a % b else -((-a) % b)
  }

  function Step(failures: int): int {
    if failures <= 1 then 30 else if failures == 2 then 120 else if failures == 3 then 300 else if failures == 4 then 600 else 900
  }

  /** `cliRefreshBackoff` */
  function Backoff(failures: int, id: int): int {
    var offset := Remainder(Wrap(id * 37), 16);
    Step(failures) + if offset < 0 then -offset else offset
  }

  lemma BackoffIsBounded(failures: int, id: int)
    ensures var step :=
        if failures <= 1 then 30 else if failures == 2 then 120 else if failures == 3 then 300
        else if failures == 4 then 600 else 900;
      step <= Backoff(failures, id) <= step + 15
    ensures 30 <= Backoff(failures, id) <= 915
    ensures forall more :: more >= failures ==> Step(more) >= Step(failures)
  {
  }

  // ----- one outcome -----

  /** `cliAccessTokenAlive` */
  predicate Alive(access: string, expires: Option<int>, now: int) {
    Trim(access) != "" && (expires.None? || now < expires.value)
  }

  /** The token cannot be waited for: the refusal means a new login. */
  predicate NeedsLogin(class_: Class, same: nat, alive: bool, expires: Option<int>) {
    (class_.Permanent? && !(alive && expires.Some?)) || (class_.Unclassified? && same >= UNCLASSIFIED_LIMIT && !alive)
  }

  function Max(a: int, b: int): int { if a >= b then a else b }

  class Account {
    const id: int
    var access: string
    var expires: Option<int>
    var state: RefreshState

    constructor (id: int, access: string, expires: Option<int>)
      ensures this.id == id && this.access == access && this.expires == expires && state == CLEAN
    {
      this.id, this.access, this.expires, state := id, access, expires, CLEAN;
    }

    method RecordFailure(class_: Class, code: string, now: int) returns (reauth: bool)
      modifies this`state
      ensures state == Failed(old(state), id, access, expires, class_, code, now)
      ensures
        var alive := Trim(access) != "" && (expires.None? || now < expires.value);
        reauth <==>
          (class_.Permanent? && (!alive || expires.None?)) || (class_.Unclassified? && state.sameErrorCount >= 5 && !alive)
    {
      var same := 1;
      if state.errorClass == Some(class_) && state.errorCode == code {
        same := state.sameErrorCount + 1;
      }
      var failures := state.failures + 1;
      var alive := Alive(access, expires, now);
      var delay := Backoff(failures, id);
      var retryAt: Option<int>;
      reauth := false;
      match class_ {
        case Permanent =>
          if alive && expires.Some? {
            retryAt := expires;
          } else {
            reauth, retryAt := true, None;
          }
        case Configuration =>
          retryAt := Some(now + Max(delay, CONFIGURATION_RETRY));
        case Unclassified =>
          if same >= UNCLASSIFIED_LIMIT && !alive {
            reauth, retryAt := true, None;
          } else {
            retryAt := Some(now + delay);
          }
        case Transient =>
          retryAt := Some(now + delay);
      }
      state := RefreshState(failures, same, Some(class_), code, retryAt, Some(now));
    }

    method RecordSuccess(now: int)
      modifies this`state
      ensures state == Succeeded(old(state), now)
    {
      if state.failures == 0 && state.retryAt.None? && state.errorCode == "" {
        return;
      }
      state := CLEAN.(updatedAt := Some(now));
    }
  }

  function Same(s: RefreshState, class_: Class, code: string): nat {
    if s.errorClass == Some(class_) && s.errorCode == code then s.sameErrorCount + 1 else 1
  }

  function RetryAt(failures: nat, same: nat, id: int, alive: bool, expires: Option<int>, class_: Class, now: int): Option<int> {
    if NeedsLogin(class_, same, alive, expires) then None
    else if class_.Permanent? then expires
    else if class_.Configuration? then Some(now + Max(Backoff(failures, id), CONFIGURATION_RETRY))
    else Some(now + Backoff(failures, id))
  }

  function Failed(s: RefreshState, id: int, access: string, expires: Option<int>, class_: Class, code: string, now: int): RefreshState {
    var same := Same(s, class_, code);
    RefreshState(s.failures + 1, same, Some(class_), code,
                 RetryAt(s.failures + 1, same, id, Alive(access, expires, now), expires, class_, now), Some(now))
  }

  function Succeeded(s: RefreshState, now: int): RefreshState {
    if s.failures == 0 && s.retryAt.None? && s.errorCode == "" then s else CLEAN.(updatedAt := Some(now))
  }

  // ----- whole runs -----

  /** What a scheduled refresh came to, and the token the account had then. */
  datatype Outcome =
    | Failure(class_: Class, code: string, access: string, expires: Option<int>, now: int)
    | Success(at: int)

  function After(s: RefreshState, id: int, history: seq<Outcome>): RefreshState {
    if history == [] then s
    else
      var before := After(s, id, history[..|history| - 1]);
      match history[|history| - 1]
      case Failure(class_, code, access, expires, now) => Failed(before, id, access, expires, class_, code, now)
      case Success(at) => Succeeded(before, at)
  }

  /** How many of the last outcomes are failures, with nothing in between that differs. */
  function Streak(history: seq<Outcome>): nat {
    if history == [] || history[|history| - 1].Success? then 0
    else
      var (last, before) := (history[|history| - 1], history[..|history| - 1]);
      if before != [] && before[|before| - 1].Failure? && before[|before| - 1].class_ == last.class_ && before[|before| - 1].code == last.code
      then Streak(before) + 1 else 1
  }

  function FailuresSince(history: seq<Outcome>): nat {
    if history == [] || history[|history| - 1].Success? then 0 else FailuresSince(history[..|history| - 1]) + 1
  }

  /** The stored counters are the current streak of identical failures and the failures since the
      last success, and the stored error is the last one. */
  lemma {:induction false} CountersAreStreaks(id: int, history: seq<Outcome>)
    ensures var s := After(CLEAN, id, history);
            && s.sameErrorCount == Streak(history) && s.failures == FailuresSince(history)
            && (if history != [] && history[|history| - 1].Failure? then
                  s.errorClass == Some(history[|history| - 1].class_) && s.errorCode == history[|history| - 1].code
                else s.errorClass.None? && s.errorCode == "" && s.retryAt.None?)
  {
    if history != [] { CountersAreStreaks(id, history[..|history| - 1]); }
  }

  /** A failure asks for a login exactly when nothing is left to wait for; every other failure waits
      until a moment that is still to come. */
  lemma FailuresWaitOrAskForLogin(id: int, history: seq<Outcome>)
    requires history != [] && history[|history| - 1].Failure?
    ensures var (s, f) := (After(CLEAN, id, history), history[|history| - 1]);
            var alive := Trim(f.access) != "" && (f.expires.None? || f.now < f.expires.value);
            if (f.class_.Permanent? && (!alive || f.expires.None?)) || (f.class_.Unclassified? && Streak(history) >= 5 && !alive) then
              s.retryAt.None?
            else
              s.retryAt.Some? && s.retryAt.value > f.now
              && (f.class_.Configuration? ==> s.retryAt.value >= f.now + 1800)
              && (f.class_.Permanent? ==> s.retryAt == f.expires)
              && (f.class_.Transient? || f.class_.Unclassified? ==>
                    f.now + 30 <= s.retryAt.value <= f.now + 915)
  {
    CountersAreStreaks(id, history);
    BackoffIsBounded(FailuresSince(history), id);
  }

  // ----- what waiting means -----

  /** `cliRefreshDue`; the jitter comes from a hash of the account id. */
  predicate Due(access: string, expires: Option<int>, s: RefreshState, now: int, jitter: nat) {
    && !(s.retryAt.Some? && now < s.retryAt.value)
    && (Trim(access) == "" || expires.None? || expires.value - now <= BASE_LEAD + jitter)
  }

  /** Until the moment a failure asked to wait for, neither the scheduler nor a request sends the
      refresh token. */
  lemma BackoffIsRespected(s: RefreshState, c: C.Credential, rejected: string, force: bool, script: C.Script, jitter: nat)
    requires c.retryAt == s.retryAt && s.retryAt.Some? && script.now < s.retryAt.value
    ensures !Due(c.access, c.expires, s, script.now, jitter)
    ensures !C.Decide(c, rejected, force, script).Spend?
  {
  }
}
