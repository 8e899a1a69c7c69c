/** internal/billingledger/event.go: the identity of a billing event carries the second in which it
    was created, and with it the window in which it may be settled.  Times are nanoseconds. */
module BillingEvent {
  import opened Text

  const SECOND: int := 1_000_000_000
  const MINUTE: int := 60 * SECOND
  const HOUR: int := 60 * MINUTE
  const RETENTION: int := 7 * 24 * HOUR

  const VERSION := "v2"

  function EventId(seconds: int, requestId: string): string {
    VERSION + ([':'] + (PrintInt(seconds) + ([':'] + requestId)))
  }

  /** `strings.SplitN(event, ":", 3)`, if it yields three parts. */
  function Parts(event: string): Option<(string, string, string)> {
    match CutAt(event, ':')
    case None => None
    case Some((version, rest)) =>
      match CutAt(rest, ':')
      case None => None
      case Some((seconds, requestId)) => Some((version, seconds, requestId))
  }

  /** The creation time an identity states. */
  function Created(event: string): Option<int> {
    match Parts(event)
    case None => None
    case Some((version, seconds, requestId)) =>
      if version != VERSION || requestId == "" then None
      else
        match ParseInt(seconds)
        case None => None
        case Some(s) => Some(s * SECOND)
  }

  /** The time at which the event can no longer be settled; `None` is any of the errors. */
  function EventExpiry(event: string, now: int): Option<int> {
    match Created(event)
    case None => None
    case Some(created) =>
      var expiry := created + RETENTION;
      if created > now + 5 * MINUTE || !(expiry > now) then None else Some(expiry)
  }

  lemma EventIdIs(seconds: int, requestId: string)
    ensures EventId(seconds, requestId) == "v2:" + (PrintInt(seconds) + (":" + requestId))
  {
    assert VERSION + [':'] == "v2:";
  }

  lemma NoColonInInt(n: int)
    ensures ':' !in PrintInt(n)
  {
    var digits := PrintNat(if n < 0 then -n else n);
    assert ':' !in digits;
  }

  lemma CreatedOfEventId(seconds: int, requestId: string)
    requires IsInt64(seconds)
    ensures Created(EventId(seconds, requestId)) == if requestId == "" then None else Some(seconds * SECOND)
  {
    var behind := PrintInt(seconds) + ([':'] + requestId);
    CutAtFirst(VERSION, ':', behind);
    NoColonInInt(seconds);
    CutAtFirst(PrintInt(seconds), ':', requestId);
    IntRoundTrip(seconds);
  }

  /** Whatever the request is called, also with colons in it, its event reads back as created when it
      was, and can be settled exactly from five minutes before that second until seven days after. */
  lemma EventIdRoundTrip(seconds: int, requestId: string, now: int)
    requires IsInt64(seconds)
    ensures EventExpiry(EventId(seconds, requestId), now)
      == if requestId != "" && (seconds - 300) * 1_000_000_000 <= now < (seconds + 604_800) * 1_000_000_000
         then Some((seconds + 604_800) * 1_000_000_000) else None
  {
    CreatedOfEventId(seconds, requestId);
  }

  /** The expiry does not depend on when it is asked for, only whether there is an answer does. */
  lemma ExpiryIsFixed(event: string, now: int, later: int)
    requires EventExpiry(event, now).Some? && EventExpiry(event, later).Some?
    ensures EventExpiry(event, now) == EventExpiry(event, later)
    ensures EventExpiry(event, now).value % SECOND == 0
    ensures later < EventExpiry(event, now).value
  {
  }
}
