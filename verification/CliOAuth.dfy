/** internal/grok/cli_oauth.go, with the compare-and-set of internal/store/credential_patch.go:
    a rotated refresh token is held in memory until the store has it.

    A call runs under the per-account lease of internal/refreshqueue, so calls follow one another.
    The other writers of the account row (a new login, a deletion, the scheduler's backoff) may act
    at every gap between two steps of a call; a `Script` says what they do and which steps fail. */
module CliOAuth {
  import opened Text

  /** `cliOAuthRefreshSkew`, in seconds. */
  const SKEW := 300

  /** The fields of an account that a refresh touches. */
  datatype Credential =
    Credential(access: string, refresh: string, expires: Option<int>, retryAt: Option<int>)

  datatype Patch = Patch(expected: string, access: string, refresh: string, expires: int)

  datatype Event = Reauthorized(login: Credential) | Deleted | Sent(token: string) | Rotated(spent: string, next: string)

  datatype History = Start | Then(before: History, event: Event)

  /** The account row in the store, the rotation pending in memory, every refresh token seen so
      far, and what has happened. */
  datatype World = World(row: Option<Credential>, pending: Option<Patch>, known: set<string>, history: History)

  datatype Move = Reauthorize(login: Credential) | Delete | BackOff(retryAt: Option<int>)

  datatype Write = Written | NotWritten | AnswerLost

  datatype Grant = Refused | Granted(access: string, refresh: string, expires: int)

  datatype Script = Script(
    beforeResolve: seq<Move>, resolve: Write, beforeCheck: seq<Move>, checkFails: bool,
    beforeRead: seq<Move>, readFails: bool, checkedAt: int, now: int,
    inFlight: seq<Move>, grant: Grant, beforeSave: seq<Move>, save: Write)

  datatype Failure = NotPersisted | Unreadable | BackingOff | MissingRefreshToken | GrantRefused

  datatype Reply = Token(token: string) | Failed(why: Failure)

  // ----- the rows of the store -----

  function Overlay(current: string, incoming: string): string {
    if Trim(incoming) != "" then Trim(incoming) else current
  }

  /** `applyCredentialPatch`: refused when the row holds neither the expected nor the new token. */
  function Patched(c: Credential, p: Patch): Option<Credential> {
    if Trim(p.expected) != "" && c.refresh != Trim(p.expected) && c.refresh != Trim(p.refresh) then None
    else Some(c.(access := Overlay(c.access, p.access), refresh := Overlay(c.refresh, p.refresh), expires := Some(p.expires)))
  }

  /** `persistRotation`.  A row that is gone is not an error. */
  function Persist(w: World, p: Patch, f: Write): (World, bool) {
    if f.NotWritten? then (w, false)
    else if w.row.None? then (w, f.Written?)
    else
      match Patched(w.row.value, p)
      case None => (w, false)
      case Some(c) => (w.(row := Some(c)), f.Written?)
  }

  function Moved(w: World, m: Move): World {
    match m
    case Reauthorize(login) =>
      w.(row := Some(login), known := w.known + {login.refresh}, history := Then(w.history, Reauthorized(login)))
    case Delete => w.(row := None, history := Then(w.history, Deleted))
    case BackOff(at) => if w.row.Some? then w.(row := Some(w.row.value.(retryAt := at))) else w
  }

  function After(w: World, moves: seq<Move>): World
    decreases |moves|
  {
    if moves == [] then w else After(Moved(w, moves[0]), moves[1..])
  }

  // ----- one call -----

  function Settle(w: World, s: Script): (World, Option<Credential>) {
    var w0 := After(w, s.beforeResolve);
    match w0.pending
    case None => Read(w0, s)
    case Some(p) =>
      var (w1, ok) := Persist(w0, p, s.resolve);
      if ok then Read(w1.(pending := None), s)
      else
        var w2 := After(w1, s.beforeCheck);
        if Blocks(w2, p, s) then (w2, None) else Read(w2.(pending := None), s)
  }

  /** The rotation that could not be written may still be the one the row needs. */
  predicate Blocks(w: World, p: Patch, s: Script) {
    s.checkFails || w.row.None? || w.row.value.refresh == p.expected || w.row.value.refresh == p.refresh
  }

  function Read(w: World, s: Script): (World, Option<Credential>) {
    var w' := After(w, s.beforeRead);
    (w', if s.readFails then None else w'.row)
  }

  datatype Decision = Serve(token: string) | Deny(why: Failure) | Spend(refresh: string)

  predicate Alive(c: Credential, now: int) {
    Trim(c.access) != "" && (c.expires.None? || now < c.expires.value)
  }

  predicate InBackoff(c: Credential, now: int) { c.retryAt.Some? && now < c.retryAt.value }

  function Decide(c: Credential, rejected: string, force: bool, s: Script): Decision {
    var access := Trim(c.access);
    if (!force || access != rejected) && access != "" && (c.expires.None? || c.expires.value - s.checkedAt > SKEW) then
      Serve(access)
    else if InBackoff(c, s.now) then
      if !force && Alive(c, s.now) then Serve(access) else Deny(BackingOff)
    else if Trim(c.refresh) == "" then Deny(MissingRefreshToken)
    else Spend(Trim(c.refresh))
  }

  /** `refreshAndPersist`; also returns the caller's copy of the account. */
  function Exchange(w: World, c: Credential, token: string, s: Script): (World, Credential, Reply) {
    var w1 := After(w.(history := Then(w.history, Sent(token))), s.inFlight);
    if s.grant.Refused? || Trim(s.grant.access) == "" then (w1, c, Failed(GrantRefused))
    else
      var c' := Renewed(c, token, s.grant);
      var p := Patch(token, c'.access, c'.refresh, s.grant.expires);
      var w2 := After(Received(w1, token, s.grant, p), s.beforeSave);
      var (w3, ok) := Persist(w2, p, s.save);
      if ok then (w3.(pending := None), c', Token(c'.access)) else (w3, c', Failed(NotPersisted))
  }

  predicate Rotates(token: string, g: Grant)
    requires g.Granted?
  {
    Trim(g.refresh) != "" && Trim(g.refresh) != token
  }

  function Renewed(c: Credential, token: string, g: Grant): Credential
    requires g.Granted?
  {
    c.(access := Trim(g.access), expires := Some(g.expires),
       refresh := if Rotates(token, g) then Trim(g.refresh) else c.refresh)
  }

  /** The answer of the token endpoint is in memory. */
  function Received(w: World, token: string, g: Grant, p: Patch): World
    requires g.Granted?
  {
    if Rotates(token, g) then
      w.(pending := Some(p), known := w.known + {Trim(g.refresh)},
         history := Then(w.history, Rotated(token, Trim(g.refresh))))
    else w.(pending := Some(p))
  }

  /** `accessToken`: the world, the caller's copy and the reply afterwards. */
  function Call(w: World, copy: Credential, force: bool, s: Script): (World, Credential, Reply) {
    var (w1, latest) := Settle(w, s);
    match latest
    case None => (w1, copy, Failed(Unreadable))
    case Some(c) =>
      match Decide(c, copy.access, force, s)
      case Serve(t) => (w1, c, Token(t))
      case Deny(why) => (w1, c, Failed(why))
      case Spend(token) =>
        var (w2, c', reply) := Exchange(w1, c, token, s);
        (w2, c', if reply.Failed? && !force && FallsBack(c, c', s.now) then Token(Trim(c.access)) else reply)
  }

  /** An early renewal failed and the copy still holds the old, unexpired token. */
  predicate FallsBack(c: Credential, c': Credential, now: int) {
    Trim(c.access) != "" && Trim(c'.access) == Trim(c.access) && Alive(c', now)
  }

  // ----- what the other parties promise -----

  /** A login writes trimmed tokens, and its refresh token is new. */
  predicate MoveOk(w: World, m: Move) {
    m.Reauthorize? ==> Trim(m.login.refresh) == m.login.refresh && (m.login.refresh == "" || m.login.refresh !in w.known)
  }

  predicate MovesOk(w: World, moves: seq<Move>)
    decreases |moves|
  {
    moves == [] || (MoveOk(w, moves[0]) && MovesOk(Moved(w, moves[0]), moves[1..]))
  }

  predicate SettleOk(w: World, s: Script) {
    var w0 := After(w, s.beforeResolve);
    && MovesOk(w, s.beforeResolve)
    && match w0.pending
       case None => MovesOk(w0, s.beforeRead)
       case Some(p) =>
         var (w1, ok) := Persist(w0, p, s.resolve);
         if ok then MovesOk(w1.(pending := None), s.beforeRead)
         else
           var w2 := After(w1, s.beforeCheck);
           MovesOk(w1, s.beforeCheck) && (!Blocks(w2, p, s) ==> MovesOk(w2.(pending := None), s.beforeRead))
  }

  /** The endpoint returns the token it was sent, none, or a new one. */
  predicate ExchangeOk(w: World, c: Credential, token: string, s: Script) {
    var sent := w.(history := Then(w.history, Sent(token)));
    var w1 := After(sent, s.inFlight);
    && MovesOk(sent, s.inFlight)
    && (s.grant.Granted? && Trim(s.grant.access) != "" ==>
          && (Rotates(token, s.grant) ==> Trim(s.grant.refresh) !in w1.known)
          && MovesOk(Received(w1, token, s.grant, PatchOf(c, token, s.grant)), s.beforeSave))
  }

  function PatchOf(c: Credential, token: string, g: Grant): Patch
    requires g.Granted?
  {
    Patch(token, Renewed(c, token, g).access, Renewed(c, token, g).refresh, g.expires)
  }

  predicate CallOk(w: World, copy: Credential, force: bool, s: Script) {
    && SettleOk(w, s)
    && var (w1, latest) := Settle(w, s);
       (latest.Some? && Decide(latest.value, copy.access, force, s).Spend? ==>
          ExchangeOk(w1, latest.value, Decide(latest.value, copy.access, force, s).refresh, s))
  }

  // ----- what a history says -----

  /** The refresh tokens that a received rotation has replaced. */
  function Replaced(h: History): set<string> {
    match h
    case Start => {}
    case Then(before, e) => if e.Rotated? then Replaced(before) + {e.spent} else Replaced(before)
  }

  /** No replaced token is sent after the rotation that replaced it. */
  predicate NeverReused(h: History) {
    match h
    case Start => true
    case Then(before, e) => NeverReused(before) && (e.Sent? ==> e.token !in Replaced(before))
  }

  /** The newest refresh token of the last login: its own, or what it has been rotated to. */
  function Newest(h: History): Option<string> {
    match h
    case Start => None
    case Then(before, Reauthorized(login)) => Some(login.refresh)
    case Then(before, Deleted) => None
    case Then(before, Sent(_)) => Newest(before)
    case Then(before, Rotated(spent, next)) => if Newest(before) == Some(spent) then Some(next) else Newest(before)
  }

  /** The last login, as long as its refresh token has not been sent. */
  function Unspent(h: History): Option<Credential> {
    match h
    case Start => None
    case Then(before, Reauthorized(login)) => Some(login)
    case Then(before, Deleted) => None
    case Then(before, Sent(token)) =>
      if Unspent(before).Some? && Unspent(before).value.refresh == token then None else Unspent(before)
    case Then(before, Rotated(_, _)) => Unspent(before)
  }

  function Sends(h: History): nat {
    match h
    case Start => 0
    case Then(before, e) => Sends(before) + if e.Sent? then 1 else 0
  }

  // ----- the invariant -----

  predicate TokenOk(w: World, token: string) { Trim(token) == token && token != "" && token in w.known }

  predicate SameTokens(c: Credential, d: Credential) {
    c.access == d.access && c.refresh == d.refresh && c.expires == d.expires
  }

  /** A pending rotation is the newest of its line and the row is at most one step behind it, or a
      later login has overtaken it. */
  predicate PendingOk(w: World, p: Patch)
    requires w.row.Some? ==> Newest(w.history).Some?
  {
    && TokenOk(w, p.expected) && TokenOk(w, p.refresh) && p.refresh !in Replaced(w.history)
    && (w.row.Some? ==>
          || (&& Newest(w.history) == Some(p.refresh) && w.row.value.refresh in {p.expected, p.refresh}
              && Unspent(w.history).None?)
          || Newest(w.history).value !in {p.expected, p.refresh})
  }

  predicate Inv(w: World) {
    && NeverReused(w.history)
    && Replaced(w.history) <= w.known && "" !in Replaced(w.history)
    && (w.row.Some? <==> Newest(w.history).Some?)
    && (Unspent(w.history).Some? ==> w.row.Some? && SameTokens(w.row.value, Unspent(w.history).value))
    && (w.row.Some? ==>
          && var newest := Newest(w.history).value;
          && (newest == "" || TokenOk(w, newest)) && newest !in Replaced(w.history)
          && (|| w.row.value.refresh == newest
              || (w.pending.Some? && w.pending.value.refresh == newest && w.row.value.refresh == w.pending.value.expected)))
    && (w.pending.Some? ==> PendingOk(w, w.pending.value))
  }

  lemma MoveKeepsInv(w: World, m: Move)
    requires Inv(w) && MoveOk(w, m)
    ensures Inv(Moved(w, m)) && Moved(w, m).pending == w.pending
  {
  }

  lemma {:induction false} MovesKeepInv(w: World, moves: seq<Move>)
    requires Inv(w) && MovesOk(w, moves)
    ensures Inv(After(w, moves)) && After(w, moves).pending == w.pending
    decreases |moves|
  {
    if moves != [] {
      MoveKeepsInv(w, moves[0]);
      MovesKeepInv(Moved(w, moves[0]), moves[1..]);
    }
  }

  lemma PersistKeepsInv(w: World, p: Patch, f: Write)
    requires Inv(w) && w.pending == Some(p)
    ensures Inv(Persist(w, p, f).0) && Persist(w, p, f).0.pending == Some(p)
    ensures Persist(w, p, f).1 ==> Inv(Persist(w, p, f).0.(pending := None))
  {
  }

  lemma SettleKeepsInv(w: World, s: Script)
    requires Inv(w) && SettleOk(w, s)
    ensures Inv(Settle(w, s).0)
    ensures Settle(w, s).1.Some? ==> Settle(w, s).0.pending.None? && Settle(w, s).0.row == Settle(w, s).1
  {
    var w0 := After(w, s.beforeResolve);
    MovesKeepInv(w, s.beforeResolve);
    match w0.pending
    case None => MovesKeepInv(w0, s.beforeRead);
    case Some(p) =>
      var (w1, ok) := Persist(w0, p, s.resolve);
      PersistKeepsInv(w0, p, s.resolve);
      if ok {
        MovesKeepInv(w1.(pending := None), s.beforeRead);
      } else {
        MovesKeepInv(w1, s.beforeCheck);
        var w2 := After(w1, s.beforeCheck);
        if !Blocks(w2, p, s) { MovesKeepInv(w2.(pending := None), s.beforeRead); }
      }
  }

  /** What is sent is the row's own token, so it is the newest; what comes back is pending until it
      is in the row. */
  lemma ExchangeKeepsInv(w: World, c: Credential, token: string, s: Script)
    requires Inv(w) && w.pending.None? && w.row == Some(c)
    requires token == Trim(c.refresh) && token != "" && ExchangeOk(w, c, token, s)
    ensures Inv(Exchange(w, c, token, s).0)
  {
    var sent := w.(history := Then(w.history, Sent(token)));
    assert Inv(sent);
    MovesKeepInv(sent, s.inFlight);
    var w1 := After(sent, s.inFlight);
    MovesKeep(sent, s.inFlight, token);
    if s.grant.Granted? && Trim(s.grant.access) != "" {
      ReceivedKeepsInv(w1, c, token, s.grant);
      var p := PatchOf(c, token, s.grant);
      MovesKeepInv(Received(w1, token, s.grant, p), s.beforeSave);
      PersistKeepsInv(After(Received(w1, token, s.grant, p), s.beforeSave), p, s.save);
    }
  }

  /** The token that was just sent: known, not replaced, and either the newest or overtaken. */
  predicate InFlight(w: World, token: string) {
    && TokenOk(w, token) && token !in Replaced(w.history)
    && (Newest(w.history) == Some(token) ==> Unspent(w.history).None? && w.row.Some? && w.row.value.refresh == token)
  }

  lemma {:induction false} MovesKeep(w: World, moves: seq<Move>, token: string)
    requires Inv(w) && MovesOk(w, moves) && InFlight(w, token)
    ensures InFlight(After(w, moves), token)
    decreases |moves|
  {
    if moves != [] {
      MoveKeepsInv(w, moves[0]);
      MovesKeep(Moved(w, moves[0]), moves[1..], token);
    }
  }

  lemma ReceivedKeepsInv(w: World, c: Credential, token: string, g: Grant)
    requires Inv(w) && w.pending.None? && InFlight(w, token) && c.refresh == token
    requires g.Granted? && (Rotates(token, g) ==> Trim(g.refresh) !in w.known)
    ensures Inv(Received(w, token, g, PatchOf(c, token, g)))
  {
    TrimIsTrimmed(g.refresh);
    TrimIsTrimmed(Trim(g.refresh));
  }

  /** No call sends a replaced token, loses a received one or touches a later login. */
  lemma CallKeepsInv(w: World, copy: Credential, force: bool, s: Script)
    requires Inv(w) && CallOk(w, copy, force, s)
    ensures Inv(Call(w, copy, force, s).0)
  {
    SettleKeepsInv(w, s);
    var (w1, latest) := Settle(w, s);
    if latest.Some? {
      var d := Decide(latest.value, copy.access, force, s);
      if d.Spend? { ExchangeKeepsInv(w1, latest.value, d.refresh, s); }
    }
  }

  // ----- whole runs -----

  /** A caller with its own copy of the account, or another writer between two calls. */
  datatype Step = Visit(copy: Credential, force: bool, script: Script) | Between(move: Move)

  function Stepped(w: World, step: Step): World {
    match step
    case Visit(copy, force, s) => Call(w, copy, force, s).0
    case Between(m) => Moved(w, m)
  }

  function Run(w: World, steps: seq<Step>): World
    decreases |steps|
  {
    if steps == [] then w else Run(Stepped(w, steps[0]), steps[1..])
  }

  predicate StepOk(w: World, step: Step) {
    match step
    case Visit(copy, force, s) => CallOk(w, copy, force, s)
    case Between(m) => MoveOk(w, m)
  }

  predicate RunOk(w: World, steps: seq<Step>)
    decreases |steps|
  {
    steps == [] || (StepOk(w, steps[0]) && RunOk(Stepped(w, steps[0]), steps[1..]))
  }

  /** A process that has just started. */
  const STARTED := World(None, None, {}, Start)

  lemma {:induction false} RunKeepsInv(w: World, steps: seq<Step>)
    requires Inv(w) && RunOk(w, steps)
    ensures Inv(Run(w, steps))
    decreases |steps|
  {
    if steps != [] {
      if steps[0].Visit? {
        CallKeepsInv(w, steps[0].copy, steps[0].force, steps[0].script);
      } else {
        MoveKeepsInv(w, steps[0].move);
      }
      RunKeepsInv(Stepped(w, steps[0]), steps[1..]);
    }
  }

  /** In every run, whatever is lost, delayed or raced: no replaced refresh token is sent again, the
      newest one of the last login is in the row or waits in memory to be written over the one it
      replaced, and a login whose refresh token has not been used is in the row as it was written. */
  lemma RotationsAreSafe(steps: seq<Step>)
    requires RunOk(STARTED, steps)
    ensures var w := Run(STARTED, steps);
            && NeverReused(w.history)
            && (Newest(w.history).Some? ==>
                  && w.row.Some?
                  && (|| w.row.value.refresh == Newest(w.history).value
                      || (w.pending.Some? && w.pending.value.refresh == Newest(w.history).value
                          && w.pending.value.expected == w.row.value.refresh)))
            && (Unspent(w.history).Some? ==> w.row.Some? && SameTokens(w.row.value, Unspent(w.history).value))
  {
    RunKeepsInv(STARTED, steps);
  }

  // ----- forced refreshes -----

  /** An access token that a caller who was refused `rejected` may use until `until`. */
  predicate Usable(access: string, expires: Option<int>, rejected: string, until: int) {
    Trim(access) != "" && Trim(access) != rejected && (expires.None? || expires.value - until > SKEW)
  }

  predicate PatchUsable(p: Patch, rejected: string, until: int) { Usable(p.access, Some(p.expires), rejected, until) }

  /** The row has a usable access token, or a pending rotation will put one there. */
  predicate Replenished(w: World, rejected: string, until: int) {
    && (w.pending.Some? ==> PatchUsable(w.pending.value, rejected, until))
    && (w.row.Some? ==>
          || Usable(w.row.value.access, w.row.value.expires, rejected, until)
          || (w.pending.Some? && w.row.value.refresh in {w.pending.value.expected, w.pending.value.refresh}))
  }

  predicate MoveUsable(m: Move, rejected: string, until: int) {
    m.Reauthorize? ==> Usable(m.login.access, m.login.expires, rejected, until)
  }

  predicate MovesUsable(moves: seq<Move>, rejected: string, until: int) {
    forall m :: m in moves ==> MoveUsable(m, rejected, until)
  }

  /** Logins during the call bring usable tokens, and it reads the clock before `until`. */
  predicate ScriptUsable(s: Script, rejected: string, until: int) {
    && s.checkedAt <= until
    && MovesUsable(s.beforeResolve, rejected, until) && MovesUsable(s.beforeCheck, rejected, until)
    && MovesUsable(s.beforeRead, rejected, until) && MovesUsable(s.inFlight, rejected, until)
    && MovesUsable(s.beforeSave, rejected, until)
  }

  lemma {:induction false} MovesKeepReplenished(w: World, moves: seq<Move>, rejected: string, until: int)
    requires Replenished(w, rejected, until) && MovesUsable(moves, rejected, until)
    ensures Replenished(After(w, moves), rejected, until)
    ensures After(w, moves).pending == w.pending && Sends(After(w, moves).history) == Sends(w.history)
    decreases |moves|
  {
    if moves != [] {
      assert MoveUsable(moves[0], rejected, until);
      MovesKeepReplenished(Moved(w, moves[0]), moves[1..], rejected, until);
    }
  }

  lemma PersistKeepsReplenished(w: World, p: Patch, f: Write, rejected: string, until: int)
    requires Inv(w) && w.pending == Some(p) && Replenished(w, rejected, until)
    ensures var (w', ok) := Persist(w, p, f);
            && Replenished(w', rejected, until)
            && (ok ==> Replenished(w'.(pending := None), rejected, until))
  {
    TrimIsTrimmed(p.access);
    TrimIsTrimmed(Trim(p.access));
  }

  lemma SettleReplenishes(w: World, s: Script, rejected: string, until: int)
    requires Inv(w) && SettleOk(w, s)
    requires Replenished(w, rejected, until) && ScriptUsable(s, rejected, until)
    ensures var (w', c) := Settle(w, s);
            && Replenished(w', rejected, until) && Sends(w'.history) == Sends(w.history)
            && (c.Some? ==> Usable(c.value.access, c.value.expires, rejected, until))
  {
    SettleKeepsInv(w, s);
    var w0 := After(w, s.beforeResolve);
    MovesKeepInv(w, s.beforeResolve);
    MovesKeepReplenished(w, s.beforeResolve, rejected, until);
    match w0.pending
    case None => MovesKeepReplenished(w0, s.beforeRead, rejected, until);
    case Some(p) =>
      var (w1, ok) := Persist(w0, p, s.resolve);
      PersistKeepsReplenished(w0, p, s.resolve, rejected, until);
      if ok {
        MovesKeepReplenished(w1.(pending := None), s.beforeRead, rejected, until);
      } else {
        PersistKeepsInv(w0, p, s.resolve);
        MovesKeepInv(w1, s.beforeCheck);
        MovesKeepReplenished(w1, s.beforeCheck, rejected, until);
        var w2 := After(w1, s.beforeCheck);
        if !Blocks(w2, p, s) { MovesKeepReplenished(w2.(pending := None), s.beforeRead, rejected, until); }
      }
  }

  /** Later callers who were refused the same access token get the new one without a grant. */
  lemma ReplenishedCallSendsNothing(w: World, copy: Credential, force: bool, s: Script, until: int)
    requires Inv(w) && CallOk(w, copy, force, s)
    requires Replenished(w, copy.access, until) && ScriptUsable(s, copy.access, until)
    ensures var (w', _, reply) := Call(w, copy, force, s);
            && Replenished(w', copy.access, until) && Sends(w'.history) == Sends(w.history)
            && (reply.Token? ==> reply.token != copy.access)
  {
    SettleReplenishes(w, s, copy.access, until);
  }

  /** A grant that yields a usable token replenishes, whether or not it could be written. */
  lemma GrantReplenishes(w: World, c: Credential, token: string, s: Script, rejected: string, until: int)
    requires Inv(w) && w.pending.None? && w.row == Some(c)
    requires token == Trim(c.refresh) && token != "" && ExchangeOk(w, c, token, s)
    requires ScriptUsable(s, rejected, until)
    requires s.grant.Granted? && Usable(s.grant.access, Some(s.grant.expires), rejected, until)
    ensures Replenished(Exchange(w, c, token, s).0, rejected, until)
    ensures Sends(Exchange(w, c, token, s).0.history) == Sends(w.history) + 1
  {
    TrimIsTrimmed(s.grant.access);
    TrimIsTrimmed(Trim(s.grant.access));
    var sent := w.(history := Then(w.history, Sent(token)));
    MovesKeepInv(sent, s.inFlight);
    MovesKeep(sent, s.inFlight, token);
    var w1 := After(sent, s.inFlight);
    RowIsUsable(sent, s.inFlight, token, rejected, until);
    ReceivedKeepsInv(w1, c, token, s.grant);
    var p := PatchOf(c, token, s.grant);
    var received := Received(w1, token, s.grant, p);
    assert Replenished(received, rejected, until);
    MovesKeepInv(received, s.beforeSave);
    MovesKeepReplenished(received, s.beforeSave, rejected, until);
    PersistKeepsReplenished(After(received, s.beforeSave), p, s.save, rejected, until);
  }

  /** Another writer leaves the refresh token alone or brings a usable login. */
  predicate HoldsOrUsable(w: World, token: string, rejected: string, until: int) {
    w.row.Some? ==>
      w.row.value.refresh == token || Usable(w.row.value.access, w.row.value.expires, rejected, until)
  }

  lemma {:induction false} RowIsUsable(w: World, moves: seq<Move>, token: string, rejected: string, until: int)
    requires MovesUsable(moves, rejected, until) && HoldsOrUsable(w, token, rejected, until)
    ensures HoldsOrUsable(After(w, moves), token, rejected, until)
    ensures Sends(After(w, moves).history) == Sends(w.history)
    decreases |moves|
  {
    if moves != [] {
      assert MoveUsable(moves[0], rejected, until);
      RowIsUsable(Moved(w, moves[0]), moves[1..], token, rejected, until);
    }
  }

  /** A forced refresh by a caller who was refused `rejected`, or a usable login. */
  predicate FromRefused(step: Step, rejected: string, until: int) {
    match step
    case Visit(copy, force, s) => force && copy.access == rejected && ScriptUsable(s, rejected, until)
    case Between(m) => MoveUsable(m, rejected, until)
  }

  predicate AllRefused(steps: seq<Step>, rejected: string, until: int) {
    forall i :: 0 <= i < |steps| ==> FromRefused(steps[i], rejected, until)
  }

  lemma {:induction false} ReplenishedRunSendsNothing(w: World, steps: seq<Step>, rejected: string, until: int)
    requires Inv(w) && RunOk(w, steps) && AllRefused(steps, rejected, until) && Replenished(w, rejected, until)
    ensures Sends(Run(w, steps).history) == Sends(w.history)
    decreases |steps|
  {
    if steps != [] {
      var step := steps[0];
      assert FromRefused(steps[0], rejected, until);
      if step.Visit? {
        ReplenishedCallSendsNothing(w, step.copy, step.force, step.script, until);
        CallKeepsInv(w, step.copy, step.force, step.script);
      } else {
        MoveKeepsInv(w, step.move);
      }
      ReplenishedRunSendsNothing(Stepped(w, step), steps[1..], rejected, until);
    }
  }

  /** The grants asked for by callers who were all refused the same access token: one is enough,
      if what it yields is usable, even when it cannot be written down at once. */
  lemma {:induction false} OneGrantIsEnough(w: World, steps: seq<Step>, rejected: string, until: int)
    requires Inv(w) && RunOk(w, steps) && AllRefused(steps, rejected, until)
    requires forall i :: 0 <= i < |steps| ==> GrantUsable(steps[i], rejected, until)
    ensures Sends(Run(w, steps).history) <= Sends(w.history) + 1
    decreases |steps|
  {
    if steps != [] {
      var step, w1 := steps[0], Stepped(w, steps[0]);
      assert FromRefused(steps[0], rejected, until) && GrantUsable(steps[0], rejected, until);
      if step.Visit? {
        CallKeepsInv(w, step.copy, step.force, step.script);
        CallSendsOrNot(w, step.copy, step.script, until);
      } else {
        MoveKeepsInv(w, step.move);
      }
      if Sends(w1.history) == Sends(w.history) {
        OneGrantIsEnough(w1, steps[1..], rejected, until);
      } else {
        ReplenishedRunSendsNothing(w1, steps[1..], rejected, until);
      }
    }
  }

  predicate GrantUsable(step: Step, rejected: string, until: int) {
    step.Visit? ==>
      && step.script.grant.Granted?
      && Usable(step.script.grant.access, Some(step.script.grant.expires), rejected, until)
  }

  lemma CallSendsOrNot(w: World, copy: Credential, s: Script, until: int)
    requires Inv(w) && CallOk(w, copy, true, s) && ScriptUsable(s, copy.access, until)
    requires s.grant.Granted? && Usable(s.grant.access, Some(s.grant.expires), copy.access, until)
    ensures var w' := Call(w, copy, true, s).0;
            || Sends(w'.history) == Sends(w.history)
            || (Sends(w'.history) == Sends(w.history) + 1 && Replenished(w', copy.access, until))
  {
    SettleKeepsInv(w, s);
    SettleSendsNothing(w, s);
    var (w1, latest) := Settle(w, s);
    if latest.Some? {
      var d := Decide(latest.value, copy.access, true, s);
      if d.Spend? { GrantReplenishes(w1, latest.value, d.refresh, s, copy.access, until); }
    }
  }

  lemma {:induction false} MovesSendNothing(w: World, moves: seq<Move>)
    ensures Sends(After(w, moves).history) == Sends(w.history)
    decreases |moves|
  {
    if moves != [] { MovesSendNothing(Moved(w, moves[0]), moves[1..]); }
  }

  lemma SettleSendsNothing(w: World, s: Script)
    ensures Sends(Settle(w, s).0.history) == Sends(w.history)
  {
    MovesSendNothing(w, s.beforeResolve);
    var w0 := After(w, s.beforeResolve);
    match w0.pending
    case None => MovesSendNothing(w0, s.beforeRead);
    case Some(p) =>
      var (w1, ok) := Persist(w0, p, s.resolve);
      MovesSendNothing(w1.(pending := None), s.beforeRead);
      MovesSendNothing(w1, s.beforeCheck);
      var w2 := After(w1, s.beforeCheck);
      MovesSendNothing(w2.(pending := None), s.beforeRead);
  }

  // ----- what a call answers -----

  /** The refresh tokens that were sent, in order. */
  function SentTokens(h: History): seq<string> {
    match h
    case Start => []
    case Then(before, e) => if e.Sent? then SentTokens(before) + [e.token] else SentTokens(before)
  }

  lemma {:induction false} SendsAreTokens(h: History)
    ensures Sends(h) == |SentTokens(h)|
  {
    match h
    case Start =>
    case Then(before, _) => SendsAreTokens(before);
  }

  /** The access token is there, and has no expiry or one more than five minutes ahead. */
  predicate Fresh(c: Credential, checkedAt: int) {
    Trim(c.access) != "" && (c.expires.None? || c.expires.value - checkedAt > 300)
  }

  /** A settled call spends the refresh token: it may, it can, and it has a reason to. */
  predicate Spends(c: Credential, rejected: string, force: bool, s: Script) {
    && (c.retryAt.None? || c.retryAt.value <= s.now)
    && Trim(c.refresh) != ""
    && (!Fresh(c, s.checkedAt) || (force && Trim(c.access) == rejected))
  }

  /** What a call says that settled on `c`, and what it sent.  A rotation it received is pending
      afterwards if it could not be written. */
  predicate Answers(w: World, after: World, c: Credential, rejected: string, force: bool, s: Script, reply: Reply) {
    var access := Trim(c.access);
    var unexpired := access != "" && (c.expires.None? || s.now < c.expires.value);
    && SentTokens(after.history) == SentTokens(w.history) + (if Spends(c, rejected, force, s) then [Trim(c.refresh)] else [])
    && (Fresh(c, s.checkedAt) && !(force && access == rejected) ==> reply == Token(access))
    && (!Fresh(c, s.checkedAt) || (force && access == rejected) ==>
          if c.retryAt.Some? && s.now < c.retryAt.value then
            // the refresh is backing off
            reply == if !force && unexpired then Token(access) else Failed(BackingOff)
          else if Trim(c.refresh) == "" then reply == Failed(MissingRefreshToken)
          else if s.grant.Refused? || Trim(s.grant.access) == "" then
            // an early renewal that failed
            reply == if !force && unexpired then Token(access) else Failed(GrantRefused)
          else if after.pending.None? then reply == Token(Trim(s.grant.access))
          else
            && after.pending.value.expected == Trim(c.refresh) && after.pending.value.access == Trim(s.grant.access)
            && after.pending.value.expires == s.grant.expires
            && after.pending.value.refresh == (if Trim(s.grant.refresh) in {"", Trim(c.refresh)} then c.refresh else Trim(s.grant.refresh))
            && reply == if !force && access != "" && Trim(s.grant.access) == access && s.now < s.grant.expires
                        then Token(access) else Failed(NotPersisted))
  }

  /** The caller's copy afterwards: what the call settled on, renewed by a usable grant. */
  predicate Copied(copy: Credential, c: Credential, rejected: string, force: bool, s: Script) {
    if Spends(c, rejected, force, s) && s.grant.Granted? && Trim(s.grant.access) != "" then
      && copy.access == Trim(s.grant.access) && copy.expires == Some(s.grant.expires) && copy.retryAt == c.retryAt
      && copy.refresh == (if Trim(s.grant.refresh) in {"", Trim(c.refresh)} then c.refresh else Trim(s.grant.refresh))
    else copy == c
  }

  lemma {:induction false} MovesSendNoToken(w: World, moves: seq<Move>)
    ensures SentTokens(After(w, moves).history) == SentTokens(w.history)
    decreases |moves|
  {
    if moves != [] { MovesSendNoToken(Moved(w, moves[0]), moves[1..]); }
  }

  lemma SettleSendsNoToken(w: World, s: Script)
    ensures SentTokens(Settle(w, s).0.history) == SentTokens(w.history)
  {
    MovesSendNoToken(w, s.beforeResolve);
    var w0 := After(w, s.beforeResolve);
    match w0.pending
    case None => MovesSendNoToken(w0, s.beforeRead);
    case Some(p) =>
      var (w1, ok) := Persist(w0, p, s.resolve);
      MovesSendNoToken(w1.(pending := None), s.beforeRead);
      MovesSendNoToken(w1, s.beforeCheck);
      var w2 := After(w1, s.beforeCheck);
      MovesSendNoToken(w2.(pending := None), s.beforeRead);
  }

  lemma ExchangeSendsOnce(w: World, c: Credential, token: string, s: Script)
    ensures SentTokens(Exchange(w, c, token, s).0.history) == SentTokens(w.history) + [token]
  {
    var sent := w.(history := Then(w.history, Sent(token)));
    MovesSendNoToken(sent, s.inFlight);
    if s.grant.Granted? && Trim(s.grant.access) != "" {
      var w1 := Received(After(sent, s.inFlight), token, s.grant, PatchOf(c, token, s.grant));
      MovesSendNoToken(w1, s.beforeSave);
    }
  }

  /** A rotation stays pending until it is written. */
  lemma ExchangeKeepsPending(w: World, c: Credential, token: string, s: Script)
    ensures var (w', c', reply) := Exchange(w, c, token, s);
      if s.grant.Refused? || Trim(s.grant.access) == "" then w'.pending == w.pending
      else w'.pending == if reply.Token? then None else Some(Patch(token, c'.access, c'.refresh, s.grant.expires))
  {
    var sent := w.(history := Then(w.history, Sent(token)));
    MovesKeepPending(sent, s.inFlight);
    if s.grant.Granted? && Trim(s.grant.access) != "" {
      MovesKeepPending(Received(After(sent, s.inFlight), token, s.grant, PatchOf(c, token, s.grant)), s.beforeSave);
    }
  }

  lemma {:induction false} MovesKeepPending(w: World, moves: seq<Move>)
    ensures After(w, moves).pending == w.pending
    decreases |moves|
  {
    if moves != [] { MovesKeepPending(Moved(w, moves[0]), moves[1..]); }
  }

  lemma GrantedIsTrimmed(w: World, c: Credential, token: string, s: Script)
    requires s.grant.Granted?
    ensures Trim(Trim(s.grant.access)) == Trim(s.grant.access)
    ensures Trim(s.grant.access) != "" && Exchange(w, c, token, s).0.pending.Some? ==>
      Exchange(w, c, token, s).0.pending == Some(PatchOf(c, token, s.grant))
    ensures Trim(s.grant.access) != "" ==> (Exchange(w, c, token, s).2.Failed? <==> Exchange(w, c, token, s).0.pending.Some?)
  {
    TrimIsTrimmed(s.grant.access);
    TrimIsTrimmed(Trim(s.grant.access));
    if Trim(s.grant.access) != "" {
      var w1 := After(w.(history := Then(w.history, Sent(token))), s.inFlight);
      MovesKeepPending(Received(w1, token, s.grant, PatchOf(c, token, s.grant)), s.beforeSave);
    }
  }

  /** A call that cannot tell what became of a pending rotation keeps it and gives up; only a write that is
      known to have worked, or a row that is known to hold neither of its tokens, clears it. */
  lemma SettleKeepsPending(w: World, s: Script)
    ensures var (w', latest) := Settle(w, s);
      && (latest.Some? ==> w'.pending.None? && w'.row == latest && !s.readFails)
      && (w'.pending.Some? ==> w'.pending == w.pending && latest.None?)
      && (w.pending.Some? && w'.pending.None? ==> s.resolve.Written? || !s.checkFails)
  {
    var w0 := After(w, s.beforeResolve);
    MovesKeepPending(w, s.beforeResolve);
    match w0.pending
    case None => MovesKeepPending(w0, s.beforeRead);
    case Some(p) =>
      var (w1, ok) := Persist(w0, p, s.resolve);
      MovesKeepPending(w1, s.beforeCheck);
      MovesKeepPending(w1.(pending := None), s.beforeRead);
      MovesKeepPending(After(w1, s.beforeCheck).(pending := None), s.beforeRead);
  }

  /** Every call: it answers as an unreadable row makes it, or as what it settled on says. */
  lemma CallAnswers(w: World, copy: Credential, force: bool, s: Script)
    ensures var (w', copy', reply) := Call(w, copy, force, s);
      match Settle(w, s).1
      case None => reply == Failed(Unreadable) && SentTokens(w'.history) == SentTokens(w.history) && copy' == copy
      case Some(c) => Answers(w, w', c, copy.access, force, s, reply) && Copied(copy', c, copy.access, force, s)
  {
    SettleSendsNoToken(w, s);
    var (w1, latest) := Settle(w, s);
    if latest.Some? {
      var d := Decide(latest.value, copy.access, force, s);
      if d.Spend? {
        ExchangeSendsOnce(w1, latest.value, d.refresh, s);
        if s.grant.Granted? { GrantedIsTrimmed(w1, latest.value, d.refresh, s); }
      } else {
        assert SentTokens(w1.history) + [] == SentTokens(w1.history);
      }
    }
  }

  /** A call that nothing disturbs, without a pending rotation, settles on the row. */
  lemma CalmSettlesOnRow(w: World, s: Script)
    requires w.pending.None? && Calm(s)
    ensures Settle(w, s) == (w, w.row)
  {
  }

  /** With a pending rotation that the row accepts, that is written first. */
  lemma CalmWritesPending(w: World, p: Patch, c: Credential, s: Script)
    requires w.pending == Some(p) && w.row == Some(c) && Calm(s)
    requires Trim(p.expected) == "" || c.refresh in {Trim(p.expected), Trim(p.refresh)}
    ensures var (w', latest) := Settle(w, s);
      && w'.pending.None? && latest.Some? && w'.row == latest && w'.history == w.history
      && latest.value.access == (if Trim(p.access) != "" then Trim(p.access) else c.access)
      && latest.value.refresh == (if Trim(p.refresh) != "" then Trim(p.refresh) else c.refresh)
      && latest.value.expires == Some(p.expires) && latest.value.retryAt == c.retryAt
  {
  }

  /** The ordinary request: a live token is served as it is and nothing is sent, whoever else writes
      the row while the call is under way. */
  lemma LiveTokenIsServed(w: World, copy: Credential, s: Script)
    requires Settle(w, s).1.Some? && Fresh(Settle(w, s).1.value, s.checkedAt)
    ensures var (w', _, reply) := Call(w, copy, false, s);
      reply == Token(Trim(Settle(w, s).1.value.access)) && Sends(w'.history) == Sends(w.history)
  {
    CallAnswers(w, copy, false, s);
    SendsAreTokens(w.history);
    SendsAreTokens(Call(w, copy, false, s).0.history);
  }

  // ----- tokens that carry white space -----

  /** A call that nothing disturbs. */
  predicate Calm(s: Script) {
    && s.beforeResolve == [] && s.resolve.Written? && s.beforeCheck == [] && !s.checkFails
    && s.beforeRead == [] && !s.readFails && s.inFlight == [] && s.beforeSave == [] && s.save.Written?
  }

  /** A forced refresh of a live account spends its refresh token exactly when the stored access
      token is trimmed: otherwise the trimmed token differs from the caller's copy, is taken for
      somebody else's new one and is served again. */
  lemma ForcedRefreshIsSkippedIffUntrimmed(w: World, c: Credential, s: Script)
    requires w.row == Some(c) && w.pending.None? && Calm(s)
    requires Trim(c.access) != "" && Trim(c.refresh) != "" && !InBackoff(c, s.now)
    requires c.expires.None? || c.expires.value - s.checkedAt > SKEW
    ensures Sends(Call(w, c, true, s).0.history) == Sends(w.history) + (if Trimmed(c.access) then 1 else 0)
    ensures !Trimmed(c.access) ==> Call(w, c, true, s) == (w, c, Token(Trim(c.access)))
  {
    TrimIsTrimmed(c.access);
  }

  lemma CalmExchange(w: World, c: Credential, token: string, s: Script)
    requires Calm(s)
    ensures NeverReused(Exchange(w, c, token, s).0.history) <==>
            NeverReused(w.history) && token !in Replaced(w.history)
  {
  }

  /** The first refresh: its rotation is in the row, or refused by the compare-and-set. */
  lemma AfterFirstRefresh(w: World, c: Credential, s: Script)
    requires w.row == Some(c) && w.pending.None? && Calm(s)
    requires Decide(c, c.access, true, s) == Spend(Trim(c.refresh))
    requires s.grant.Granted? && Trim(s.grant.access) != "" && Rotates(Trim(c.refresh), s.grant)
    ensures var w1 := Call(w, c, true, s).0;
            && w1.history == Then(Then(w.history, Sent(Trim(c.refresh))), Rotated(Trim(c.refresh), Trim(s.grant.refresh)))
            && (if Trimmed(c.refresh) then
                  w1.pending.None? && w1.row.Some? && w1.row.value.refresh == Trim(s.grant.refresh)
                else w1.pending == Some(PatchOf(c, Trim(c.refresh), s.grant)) && w1.row == Some(c))
  {
    TrimIsTrimmed(c.refresh);
    TrimIsTrimmed(Trim(c.refresh));
    TrimIsTrimmed(s.grant.refresh);
    TrimIsTrimmed(Trim(s.grant.refresh));
  }

  /** What the next call settles on. */
  lemma SettledAgain(w: World, t: Script, c: Credential, g: Grant)
    requires Calm(t) && g.Granted? && Rotates(Trim(c.refresh), g) && Trim(c.refresh) != ""
    requires if Trimmed(c.refresh) then w.pending.None? && w.row.Some? && w.row.value.refresh == Trim(g.refresh)
             else w.pending == Some(PatchOf(c, Trim(c.refresh), g)) && w.row == Some(c)
    ensures var (w', r) := Settle(w, t);
            && w'.history == w.history && r.Some?
            && r.value.refresh == if Trimmed(c.refresh) then Trim(g.refresh) else c.refresh
  {
    TrimIsTrimmed(c.refresh);
    TrimIsTrimmed(Trim(c.refresh));
    TrimIsTrimmed(g.refresh);
    TrimIsTrimmed(Trim(g.refresh));
  }

  /** Two forced refreshes, one after the other: the second one sends the token that the first one
      has replaced exactly when the stored refresh token was not trimmed.  The compare-and-set then
      refuses the rotation, and the row is taken for a later login. */
  lemma SecondRefreshReusesIffUntrimmed(w: World, c: Credential, s: Script, again: Credential, t: Script)
    requires w.row == Some(c) && w.pending.None? && Calm(s) && Calm(t)
    requires Decide(c, c.access, true, s) == Spend(Trim(c.refresh))
    requires s.grant.Granted? && Trim(s.grant.access) != "" && Rotates(Trim(c.refresh), s.grant)
    requires NeverReused(w.history) && Trim(c.refresh) !in Replaced(w.history)
    requires Trim(s.grant.refresh) !in Replaced(w.history)
    requires var r := Settle(Call(w, c, true, s).0, t).1;
             r.Some? ==> Decide(r.value, again.access, true, t) == Spend(Trim(r.value.refresh))
    ensures NeverReused(Call(Call(w, c, true, s).0, again, true, t).0.history) <==> Trimmed(c.refresh)
  {
    TrimIsTrimmed(c.refresh);
    var w1 := Call(w, c, true, s).0;
    AfterFirstRefresh(w, c, s);
    SettledAgain(w1, t, c, s.grant);
    var (w2, r) := Settle(w1, t);
    CalmExchange(w2, r.value, Trim(r.value.refresh), t);
    TrimIsTrimmed(s.grant.refresh);
    TrimIsTrimmed(Trim(s.grant.refresh));
  }

  // ----- the code -----

  /** The credential fields of a caller's `store.Account`. */
  class Account {
    var access: string
    var refresh: string
    var expires: Option<int>
    var retryAt: Option<int>

    ghost function Held(): Credential
      reads this
    {
      Credential(access, refresh, expires, retryAt)
    }

    constructor (c: Credential)
      ensures Held() == c
    {
      access, refresh, expires, retryAt := c.access, c.refresh, c.expires, c.retryAt;
    }
  }

  /** One account row of the store, its one pending rotation and the history of both. */
  class CLIOAuth {
    var row: Option<Credential>
    var pending: Option<Patch>
    ghost var known: set<string>
    ghost var history: History

    ghost function Abs(): World
      reads this
    {
      World(row, pending, known, history)
    }

    constructor ()
      ensures Abs() == STARTED
    {
      row, pending, known, history := None, None, {}, Start;
    }

    /** The other writers of the row. */
    method Elapse(moves: seq<Move>)
      modifies this
      ensures Abs() == After(old(Abs()), moves)
    {
      var i := 0;
      assert moves[i..] == moves;
      while i < |moves|
        invariant 0 <= i <= |moves| && After(Abs(), moves[i..]) == After(old(Abs()), moves)
      {
        assert moves[i..][0] == moves[i] && moves[i..][1..] == moves[i + 1..];
        match moves[i] {
          case Reauthorize(login) =>
            row, known, history := Some(login), known + {login.refresh}, Then(history, Reauthorized(login));
          case Delete =>
            row, history := None, Then(history, Deleted);
          case BackOff(at) =>
            if row.Some? { row := Some(row.value.(retryAt := at)); }
        }
        i := i + 1;
      }
    }

    method PersistRotation(p: Patch, fault: Write) returns (ok: bool)
      modifies this
      ensures (Abs(), ok) == Persist(old(Abs()), p, fault)
      ensures fault.NotWritten? ==> !ok && row == old(row)
      ensures !fault.NotWritten? && row.None? ==> old(row).None? && ok == fault.Written?
      ensures old(row).Some? && !fault.NotWritten? ==>
        var c := old(row).value;
        if Trim(p.expected) != "" && c.refresh !in {Trim(p.expected), Trim(p.refresh)} then !ok && row == old(row)
        else
          && ok == fault.Written? && row.Some? && row.value.retryAt == c.retryAt && row.value.expires == Some(p.expires)
          && row.value.access == (if Trim(p.access) != "" then Trim(p.access) else c.access)
          && row.value.refresh == (if Trim(p.refresh) != "" then Trim(p.refresh) else c.refresh)
    {
      if fault.NotWritten? {
        return false;
      }
      if row.Some? {
        var expected, refresh := Trim(p.expected), Trim(p.refresh);
        if expected != "" && row.value.refresh != expected && row.value.refresh != refresh {
          return false;
        }
        var access := if Trim(p.access) != "" then Trim(p.access) else row.value.access;
        row := Some(row.value.(access := access, refresh := if refresh != "" then refresh else row.value.refresh,
                               expires := Some(p.expires)));
      }
      return fault.Written?;
    }

    method RefreshAndPersist(acc: Account, token: string, s: Script) returns (reply: Reply)
      modifies this, acc
      ensures (Abs(), acc.Held(), reply) == Exchange(old(Abs()), old(acc.Held()), token, s)
      ensures SentTokens(history) == old(SentTokens(history)) + [token]
      ensures
        if s.grant.Refused? || Trim(s.grant.access) == "" then
          reply == Failed(GrantRefused) && acc.Held() == old(acc.Held()) && pending == old(pending)
        else
          && acc.access == Trim(s.grant.access) && acc.expires == Some(s.grant.expires)
          && acc.refresh == (if Trim(s.grant.refresh) in {"", token} then old(acc.refresh) else Trim(s.grant.refresh))
          && if reply.Token? then reply == Token(acc.access) && pending == None
             else reply == Failed(NotPersisted) && pending == Some(Patch(token, acc.access, acc.refresh, s.grant.expires))
    {
      ExchangeSendsOnce(Abs(), acc.Held(), token, s);
      ExchangeKeepsPending(Abs(), acc.Held(), token, s);
      history := Then(history, Sent(token));
      Elapse(s.inFlight);
      if s.grant.Refused? || Trim(s.grant.access) == "" {
        return Failed(GrantRefused);
      }
      var access, refresh := Trim(s.grant.access), Trim(s.grant.refresh);
      acc.access, acc.expires := access, Some(s.grant.expires);
      if refresh != "" && refresh != token {
        acc.refresh := refresh;
        known, history := known + {refresh}, Then(history, Rotated(token, refresh));
      }
      var p := Patch(token, acc.access, acc.refresh, s.grant.expires);
      pending := Some(p);
      Elapse(s.beforeSave);
      var ok := PersistRotation(p, s.save);
      if !ok {
        return Failed(NotPersisted);
      }
      pending := None;
      return Token(access);
    }

    /** Writes a rotation that is still pending, unless a later login has overtaken it, and reads the row. */
    method LatestAccount(s: Script) returns (latest: Option<Credential>)
      modifies this
      ensures (Abs(), latest) == Settle(old(Abs()), s)
      ensures latest.Some? ==> pending.None? && row == latest && !s.readFails
      ensures pending.Some? ==> pending == old(pending) && latest.None?
      ensures old(pending).Some? && pending.None? ==> s.resolve.Written? || !s.checkFails
    {
      SettleKeepsPending(Abs(), s);
      Elapse(s.beforeResolve);
      if pending.Some? {
        var p := pending.value;
        var ok := PersistRotation(p, s.resolve);
        if !ok {
          Elapse(s.beforeCheck);
          if s.checkFails || row.None? || row.value.refresh == p.expected || row.value.refresh == p.refresh {
            return None;
          }
        }
        pending := None;
      }
      Elapse(s.beforeRead);
      return if s.readFails then None else row;
    }

    /** The refresh state machine of one account, under its lease. */
    method AccessToken(acc: Account, force: bool, s: Script) returns (reply: Reply)
      modifies this, acc
      ensures (Abs(), acc.Held(), reply) == Call(old(Abs()), old(acc.Held()), force, s)
      ensures match Settle(old(Abs()), s).1
        case None => reply == Failed(Unreadable) && SentTokens(history) == old(SentTokens(history)) && acc.Held() == old(acc.Held())
        case Some(c) => Answers(old(Abs()), Abs(), c, old(acc.access), force, s, reply) && Copied(acc.Held(), c, old(acc.access), force, s)
    {
      CallAnswers(Abs(), acc.Held(), force, s);
      var rejected := acc.access;
      var latest := LatestAccount(s);
      if latest.None? {
        return Failed(Unreadable);
      }
      var c := latest.value;
      acc.access, acc.refresh, acc.expires, acc.retryAt := c.access, c.refresh, c.expires, c.retryAt;
      var access, refresh := Trim(acc.access), Trim(acc.refresh);
      if (!force || access != rejected) && access != "" && (acc.expires.None? || acc.expires.value - s.checkedAt > SKEW) {
        return Token(access);
      }
      if acc.retryAt.Some? && s.now < acc.retryAt.value {
        var alive := access != "" && (acc.expires.None? || s.now < acc.expires.value);
        return if !force && alive then Token(access) else Failed(BackingOff);
      }
      if refresh == "" {
        return Failed(MissingRefreshToken);
      }
      reply := RefreshAndPersist(acc, refresh, s);
      if reply.Failed? && !force && access != "" && Trim(acc.access) == access
         && (acc.expires.None? || s.now < acc.expires.value) {
        return Token(access);
      }
    }
  }
}
