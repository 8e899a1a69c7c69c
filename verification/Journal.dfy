/** internal/api/api_ops.go `writeJournalList`: paging backwards through an append-only ledger, with
    the upstream attempts and quality checks of a request joined to its row.

    The ledger is a Redis stream, oldest entry first; its ids are modelled as increasing numbers. */
module Journal {
  import opened Text

  datatype Action = UpstreamAttempt | QualityCheck(checking: bool) | QualityRetry | QualityDegraded | QualityResolution | Other

  /** `content` stands for the fields that only the filter and the client look at. */
  datatype Event = Event(
    requestId: string, isRequest: bool, action: Action, resolved: bool, checked: int, withheld: int, content: int)

  /** `None` for a row that cannot be decoded. */
  datatype Entry = Entry(id: nat, event: Option<Event>)

  type Filter = Event -> bool

  predicate Ordered(l: seq<Entry>) { forall i, j :: 0 <= i < j < |l| ==> l[i].id < l[j].id }

  // ----- reading the ledger backwards -----

  /** How many entries are older than the cursor; all of them without one. */
  function Below(l: seq<Entry>, before: Option<nat>): (n: nat)
    ensures n <= |l|
  {
    if before.None? then |l|
    else if l == [] then 0
    else if l[|l| - 1].id < before.value then |l|
    else Below(l[..|l| - 1], before)
  }

  function Reversed<T>(s: seq<T>): (r: seq<T>)
    ensures |r| == |s|
  {
    seq(|s|, i requires 0 <= i < |s| => s[|s| - 1 - i])
  }

  function Back(hi: nat, n: nat): (lo: nat)
    ensures lo <= hi
  {
    if n <= hi then hi - n else 0
  }

  /** `XRevRangeN`: the newest entries below the cursor, newest first. */
  function XRevRange(l: seq<Entry>, before: Option<nat>, n: nat): (r: seq<Entry>)
    ensures |r| <= n
  {
    var hi := Below(l, before);
    Reversed(l[Back(hi, n)..hi])
  }

  lemma {:induction false} BelowIsExact(l: seq<Entry>, before: Option<nat>, i: nat)
    requires Ordered(l) && i < |l|
    ensures i < Below(l, before) <==> before.None? || l[i].id < before.value
  {
    var n := |l| - 1;
    if before.Some? && l[n].id >= before.value && i < n { BelowIsExact(l[..n], before, i); }
  }

  lemma {:induction false} BelowEntry(l: seq<Entry>, k: nat)
    requires Ordered(l) && k < |l|
    ensures Below(l, Some(l[k].id)) == k
  {
    var n := |l| - 1;
    if k < n {
      BelowEntry(l[..n], k);
    } else if n > 0 {
      assert l[..n][n - 1].id < l[n].id;
    }
  }

  // ----- one page -----

  /** A row of the list: an entry that is not an upstream attempt and passes the filter. */
  predicate Matches(e: Entry, f: Filter) { e.event.Some? && !e.event.value.action.UpstreamAttempt? && f(e.event.value) }

  /** The matching entries, newest first. */
  function Matching(l: seq<Entry>, f: Filter): seq<Entry> {
    if l == [] then []
    else (if Matches(l[|l| - 1], f) then [l[|l| - 1]] else []) + Matching(l[..|l| - 1], f)
  }

  function Take<T>(s: seq<T>, n: nat): seq<T> { if |s| <= n then s else s[..n] }

  /** The entries a page shows. */
  function Shown(l: seq<Entry>, before: Option<nat>, limit: nat, f: Filter): seq<Entry> {
    var hi := Below(l, before);
    Take(Matching(l[Back(hi, 6 * limit)..hi], f), limit)
  }

  function NextCursor(l: seq<Entry>, before: Option<nat>, limit: nat, f: Filter): Option<nat>
    requires limit > 0
  {
    var hi := Below(l, before);
    var lo := Back(hi, 6 * limit);
    var shown := Shown(l, before, limit, f);
    if |shown| >= limit then Some(shown[|shown| - 1].id)
    else if hi - lo >= 6 * limit then Some(l[lo].id)
    else None
  }

  function MatchingOne(e: Entry, f: Filter): seq<Entry> { if Matches(e, f) then [e] else [] }

  lemma {:induction false} MatchingSplit(a: seq<Entry>, b: seq<Entry>, f: Filter)
    ensures Matching(a + b, f) == Matching(b, f) + Matching(a, f)
    decreases |b|
  {
    if b == [] {
      assert a + b == a;
    } else {
      var b', e := b[..|b| - 1], b[|b| - 1];
      assert (a + b)[..|a + b| - 1] == a + b' && (a + b)[|a + b| - 1] == e;
      MatchingSplit(a, b', f);
      Assoc(MatchingOne(e, f), Matching(b', f), Matching(a, f));
    }
  }

  /** Behind a row there is what matches among the older entries. */
  lemma {:induction false} MatchingBehind(l: seq<Entry>, f: Filter, k: nat) returns (i: nat)
    requires k < |Matching(l, f)|
    ensures i < |l| && l[i] == Matching(l, f)[k] && Matching(l, f)[k + 1..] == Matching(l[..i], f)
    decreases |l|
  {
    var n := |l| - 1;
    var older := Matching(l[..n], f);
    if Matches(l[n], f) && k == 0 {
      assert Matching(l, f)[1..] == older;
      i := n;
    } else {
      var k' := if Matches(l[n], f) then k - 1 else k;
      i := MatchingBehind(l[..n], f, k');
      assert l[..n][..i] == l[..i];
      assert Matching(l, f) == MatchingOne(l[n], f) + older;
      assert (MatchingOne(l[n], f) + older)[k + 1..] == older[k' + 1..];
    }
  }

  lemma FullPage(l: seq<Entry>, lo: nat, hi: nat, limit: nat, f: Filter)
    requires Ordered(l) && lo <= hi <= |l| && 0 < limit <= |Matching(l[lo..hi], f)|
    ensures var m := Matching(l[lo..hi], f);
            var j := Below(l, Some(m[limit - 1].id));
            && lo <= j < hi && l[j] == m[limit - 1]
            && Matching(l[..hi], f) == m[..limit] + Matching(l[..j], f)
  {
    var m := Matching(l[lo..hi], f);
    var i := MatchingBehind(l[lo..hi], f, limit - 1);
    BelowEntry(l, lo + i);
    assert l[lo..hi][..i] == l[lo..lo + i];
    SplitAt(l, lo, hi, f);
    SplitAt(l, lo, lo + i, f);
    assert m == m[..limit] + m[limit..];
    Assoc(m[..limit], m[limit..], Matching(l[..lo], f));
  }

  lemma SplitAt(l: seq<Entry>, lo: nat, hi: nat, f: Filter)
    requires lo <= hi <= |l|
    ensures Matching(l[..hi], f) == Matching(l[lo..hi], f) + Matching(l[..lo], f)
  {
    assert l[..hi] == l[..lo] + l[lo..hi];
    MatchingSplit(l[..lo], l[lo..hi], f);
  }

  /** A page and what its cursor points at are together everything below the page's start. */
  lemma PageLosesNothing(l: seq<Entry>, before: Option<nat>, limit: nat, f: Filter)
    requires Ordered(l) && limit > 0
    ensures var next := NextCursor(l, before, limit, f);
            Matching(l[..Below(l, before)], f)
            == Shown(l, before, limit, f) + if next.None? then [] else Matching(l[..Below(l, next)], f)
    ensures var next := NextCursor(l, before, limit, f);
            next.Some? ==> Below(l, next) < Below(l, before) && l[Below(l, next)].id == next.value
  {
    if |Shown(l, before, limit, f)| >= limit { LongPage(l, before, limit, f); } else { ShortPage(l, before, limit, f); }
  }

  lemma LongPage(l: seq<Entry>, before: Option<nat>, limit: nat, f: Filter)
    requires Ordered(l) && limit > 0 && |Shown(l, before, limit, f)| >= limit
    ensures var (hi, next) := (Below(l, before), NextCursor(l, before, limit, f));
            && next.Some? && Below(l, next) < hi && l[Below(l, next)].id == next.value
            && Matching(l[..hi], f) == Shown(l, before, limit, f) + Matching(l[..Below(l, next)], f)
  {
    var hi := Below(l, before);
    var lo := Back(hi, 6 * limit);
    var m := Matching(l[lo..hi], f);
    TakeIsPrefix(m, limit);
    assert NextCursor(l, before, limit, f) == Some(m[limit - 1].id);
    FullPage(l, lo, hi, limit, f);
  }

  lemma TakeIsPrefix(m: seq<Entry>, n: nat)
    requires 0 < n <= |m|
    ensures Take(m, n) == m[..n] && |Take(m, n)| == n && Take(m, n)[n - 1] == m[n - 1]
  {
    if |m| == n { assert m[..n] == m; }
  }

  lemma ShortPage(l: seq<Entry>, before: Option<nat>, limit: nat, f: Filter)
    requires Ordered(l) && limit > 0 && |Shown(l, before, limit, f)| < limit
    ensures var (hi, next) := (Below(l, before), NextCursor(l, before, limit, f));
            && Matching(l[..hi], f) == Shown(l, before, limit, f) + (if next.None? then [] else Matching(l[..Below(l, next)], f))
            && (next.Some? ==> Below(l, next) < hi && l[Below(l, next)].id == next.value)
  {
    var hi := Below(l, before);
    var lo := Back(hi, 6 * limit);
    SplitAt(l, lo, hi, f);
    if hi - lo >= 6 * limit {
      BelowEntry(l, lo);
    } else {
      assert l[..lo] == [];
    }
  }

  // ----- following the cursor -----

  /** One request: the ledger as it is then, and the page size. */
  datatype Visit = Visit(ledger: seq<Entry>, limit: nat)

  /** Between two requests the ledger only grows at its end. */
  predicate Growing(visits: seq<Visit>) {
    && (forall k :: 0 <= k < |visits| ==> Ordered(visits[k].ledger) && visits[k].limit > 0)
    && (forall j, k :: 0 <= j <= k < |visits| ==> visits[j].ledger <= visits[k].ledger)
  }

  /** All rows that a client sees who follows `next_cursor` as long as there is one. */
  function Followed(visits: seq<Visit>, before: Option<nat>, f: Filter): seq<Entry>
    requires Growing(visits)
    decreases |visits|
  {
    if visits == [] then []
    else
      var next := NextCursor(visits[0].ledger, before, visits[0].limit, f);
      Shown(visits[0].ledger, before, visits[0].limit, f) + if next.None? then [] else Followed(visits[1..], next, f)
  }

  /** The client has been given an empty cursor. */
  predicate Finished(visits: seq<Visit>, before: Option<nat>, f: Filter)
    requires Growing(visits)
    decreases |visits|
  {
    visits != [] &&
    var next := NextCursor(visits[0].ledger, before, visits[0].limit, f);
    next.None? || Finished(visits[1..], next, f)
  }

  /** Appending changes nothing below a cursor that points at an entry. */
  lemma AppendsAreInvisible(l: seq<Entry>, l': seq<Entry>, k: nat)
    requires Ordered(l') && l <= l' && k < |l|
    ensures Below(l', Some(l[k].id)) == Below(l, Some(l[k].id)) == k
    ensures l'[..k] == l[..k]
  {
    assert l[k] == l'[k];
    BelowEntry(l', k);
    BelowEntry(l, k);
  }

  /** Every matching entry below the start exactly once, newest first; page sizes, scan limits and
      entries that are appended meanwhile make no difference. */
  lemma {:induction false} PagingIsComplete(visits: seq<Visit>, before: Option<nat>, f: Filter)
    requires Growing(visits) && Finished(visits, before, f)
    ensures var l := visits[0].ledger; Followed(visits, before, f) == Matching(l[..Below(l, before)], f)
    decreases |visits|
  {
    var l, limit := visits[0].ledger, visits[0].limit;
    var next := NextCursor(l, before, limit, f);
    PageLosesNothing(l, before, limit, f);
    if next.Some? {
      PagingIsComplete(visits[1..], next, f);
      AppendsAreInvisible(l, visits[1].ledger, Below(l, next));
    }
  }

  /** A client is done after at most as many pages as there are entries, and one more. */
  lemma {:induction false} PagingEnds(visits: seq<Visit>, before: Option<nat>, f: Filter)
    requires Growing(visits) && visits != [] && |visits| > Below(visits[0].ledger, before)
    ensures Finished(visits, before, f)
    decreases |visits|
  {
    var l, limit := visits[0].ledger, visits[0].limit;
    var next := NextCursor(l, before, limit, f);
    PageLosesNothing(l, before, limit, f);
    if next.Some? {
      AppendsAreInvisible(l, visits[1].ledger, Below(l, next));
      PagingEnds(visits[1..], next, f);
    }
  }

  /** `Matching` is the ledger's own order reversed, without repetition. */
  lemma {:induction false} MatchingIsNewestFirst(l: seq<Entry>, f: Filter)
    requires Ordered(l)
    ensures forall e :: e in Matching(l, f) <==>
      e in l && e.event.Some? && !e.event.value.action.UpstreamAttempt? && f(e.event.value)
    ensures forall i, j :: 0 <= i < j < |Matching(l, f)| ==> Matching(l, f)[i].id > Matching(l, f)[j].id
    decreases |l|
  {
    if l != [] {
      var n := |l| - 1;
      MatchingIsNewestFirst(l[..n], f);
      assert l == l[..n] + [l[n]];
      forall e | e in Matching(l[..n], f) ensures e.id < l[n].id {
        assert e in l[..n];
      }
    }
  }

  // ----- joined rows -----

  /** `isRequestQualityEvent` */
  predicate IsQuality(e: Event) {
    e.action.QualityCheck? || e.action.QualityRetry? || e.action.QualityDegraded? || e.action.QualityResolution?
  }

  predicate IsAttempt(e: Event) { e.action.UpstreamAttempt? }

  lemma KindsAre(e: Event)
    ensures IsAttempt(e) <==> e.action.UpstreamAttempt?
    ensures IsQuality(e) <==> !e.action.UpstreamAttempt? && !e.action.Other?
  {
  }

  /** The events of one request in a list of entries, in the list's order. */
  function Of(entries: seq<Entry>, request: string, kind: Event -> bool): seq<Event> {
    if entries == [] then []
    else
      Of(entries[..|entries| - 1], request, kind) + OfOne(entries[|entries| - 1], request, kind)
  }

  function OfOne(e: Entry, request: string, kind: Event -> bool): seq<Event> {
    if e.event.Some? && e.event.value.requestId == request && request != "" && kind(e.event.value) then [e.event.value] else []
  }

  lemma {:induction false} OfSplit(a: seq<Entry>, b: seq<Entry>, request: string, kind: Event -> bool)
    ensures Of(a + b, request, kind) == Of(a, request, kind) + Of(b, request, kind)
    decreases |b|
  {
    if b == [] {
      assert a + b == a;
    } else {
      var b', e := b[..|b| - 1], b[|b| - 1];
      assert (a + b)[..|a + b| - 1] == a + b' && (a + b)[|a + b| - 1] == e;
      OfSplit(a, b', request, kind);
      Assoc(Of(a, request, kind), Of(b', request, kind), OfOne(e, request, kind));
    }
  }

  lemma ReversedSplit<T>(a: seq<T>, b: seq<T>)
    ensures Reversed(a + b) == Reversed(b) + Reversed(a)
  {
  }

  /** A window read newest first and turned round is the ledger's own order. */
  lemma {:induction false} OfReversed(entries: seq<Entry>, request: string, kind: Event -> bool)
    ensures Reversed(Of(Reversed(entries), request, kind)) == Of(entries, request, kind)
    decreases |entries|
  {
    if entries != [] {
      var n := |entries| - 1;
      var older, e := entries[..n], entries[n];
      assert entries == older + [e];
      OfReversed(older, request, kind);
      ReversedSplit(older, [e]);
      assert Reversed([e]) == [e];
      OfSplit([e], Reversed(older), request, kind);
      ReversedSplit(Of([e], request, kind), Of(Reversed(older), request, kind));
      OfSplit(older, [e], request, kind);
      assert Reversed(Of([e], request, kind)) == Of([e], request, kind);
    }
  }

  datatype Tally = Tally(withheld: nat, started: nat, finished: nat, concluded: bool)

  function Counted(t: Tally, e: Event): Tally {
    match e.action
    case QualityDegraded => t.(withheld := t.withheld + 1, finished := t.finished + 1)
    case QualityCheck(true) => t.(started := t.started + 1)
    case QualityCheck(false) => t.(finished := t.finished + 1)
    case QualityResolution => t.(concluded := true)
    case _ => t
  }

  function TallyOf(checks: seq<Event>): Tally {
    if checks == [] then Tally(0, 0, 0, false) else Counted(TallyOf(checks[..|checks| - 1]), checks[|checks| - 1])
  }

  /** Some stage of the request's checks is not among these. */
  predicate Incomplete(e: Event, checks: seq<Event>) {
    var t := TallyOf(checks);
    (e.resolved && !t.concluded) || t.withheld < e.withheld || t.started < e.checked || t.finished < e.checked
  }

  datatype Row = Row(id: nat, event: Event, attempts: seq<Event>, quality: Option<seq<Event>>)

  /** A row with what the page's own window knows about its request. */
  function FirstRow(e: Entry, window: seq<Entry>): Row
    requires e.event.Some?
  {
    var (ev, r) := (e.event.value, e.event.value.requestId);
    var checks := Of(window, r, IsQuality);
    Row(e.id, ev, Of(window, r, IsAttempt), if checks != [] && ev.isRequest then Some(Reversed(checks)) else None)
  }

  predicate LacksAttempts(row: Row, window: seq<Entry>) {
    row.event.requestId != "" && Of(window, row.event.requestId, IsAttempt) == []
  }

  predicate LacksChecks(row: Row, window: seq<Entry>) {
    && row.event.requestId != "" && row.event.isRequest && !IsQuality(row.event)
    && (row.event.resolved || row.event.checked > 0)
    && Incomplete(row.event, Of(window, row.event.requestId, IsQuality))
  }

  predicate AnyLacksChecks(rows: seq<Row>, request: string, window: seq<Entry>) {
    exists k :: 0 <= k < |rows| && rows[k].event.requestId == request && LacksChecks(rows[k], window)
  }

  /** The row after the look behind the window. */
  function FinalRow(row: Row, rows: seq<Row>, window: seq<Entry>, older: seq<Entry>): Row {
    var r := row.event.requestId;
    var attempts := if LacksAttempts(row, window) then Of(older, r, IsAttempt) else row.attempts;
    var checks := Of(window, r, IsQuality) + Of(older, r, IsQuality);
    row.(attempts := attempts,
         quality := if AnyLacksChecks(rows, r, window) && checks != [] then Some(Reversed(checks)) else row.quality)
  }

  /** `journalAttemptLookback` */
  const LOOKBACK: nat := 1000

  function Window(l: seq<Entry>, before: Option<nat>, limit: nat): seq<Entry> { XRevRange(l, before, 6 * limit) }

  function Older(l: seq<Entry>, window: seq<Entry>): seq<Entry> {
    if window == [] then [] else XRevRange(l, Some(window[|window| - 1].id), LOOKBACK)
  }

  predicate Decoded(shown: seq<Entry>) { forall k :: 0 <= k < |shown| ==> shown[k].event.Some? }

  function FirstRows(shown: seq<Entry>, window: seq<Entry>): (rows: seq<Row>)
    requires Decoded(shown)
    ensures |rows| == |shown|
  {
    seq(|shown|, k requires 0 <= k < |shown| => FirstRow(shown[k], window))
  }

  predicate FinalRows(rows: seq<Row>, first: seq<Row>, window: seq<Entry>, older: seq<Entry>) {
    |rows| == |first| && forall k :: 0 <= k < |rows| ==> rows[k] == FinalRow(first[k], first, window, older)
  }

  /** The rows of a page; the look behind the window may fail. */
  predicate PageRows(rows: seq<Row>, l: seq<Entry>, before: Option<nat>, limit: nat, f: Filter, lookbackFails: bool) {
    var shown, window := Shown(l, before, limit, f), Window(l, before, limit);
    && Decoded(shown)
    && if lookbackFails then rows == FirstRows(shown, window)
       else FinalRows(rows, FirstRows(shown, window), window, Older(l, window))
  }

  /** The ledger's own account of a request: each check once, oldest first, from some point on. */
  ghost predicate Timeline(checks: seq<Event>, l: seq<Entry>, hi: nat, request: string)
    requires hi <= |l|
  {
    exists lo :: 0 <= lo <= hi && checks == Of(l[lo..hi], request, IsQuality)
  }

  lemma ExtendedIsTimeline(l: seq<Entry>, lo2: nat, lo: nat, hi: nat, request: string)
    requires lo2 <= lo <= hi <= |l|
    ensures Timeline(Reversed(Of(Reversed(l[lo..hi]), request, IsQuality)), l, hi, request)
    ensures Timeline(Reversed(Of(Reversed(l[lo..hi]), request, IsQuality) + Of(Reversed(l[lo2..lo]), request, IsQuality)), l, hi, request)
  {
    TwoScans(l, lo2, lo, hi, request);
  }

  lemma OlderIs(l: seq<Entry>, before: Option<nat>, limit: nat)
    requires Ordered(l) && Back(Below(l, before), 6 * limit) < Below(l, before)
    ensures var lo := Back(Below(l, before), 6 * limit);
            Older(l, Window(l, before, limit)) == Reversed(l[Back(lo, LOOKBACK)..lo])
  {
    var lo, window := Back(Below(l, before), 6 * limit), Window(l, before, limit);
    assert window[|window| - 1] == l[lo];
    BelowEntry(l, lo);
  }

  /** However the checks of a row were pieced together from the two scans, they are duplicate-free
      and in order. */
  lemma QualityIsTimeline(rows: seq<Row>, l: seq<Entry>, before: Option<nat>, limit: nat, f: Filter, lookbackFails: bool, k: nat)
    requires Ordered(l) && limit > 0 && PageRows(rows, l, before, limit, f, lookbackFails)
    requires k < |rows| && rows[k].quality.Some?
    ensures Timeline(rows[k].quality.value, l, Below(l, before), rows[k].event.requestId)
  {
    var hi := Below(l, before);
    var lo := Back(hi, 6 * limit);
    var r := rows[k].event.requestId;
    ExtendedIsTimeline(l, Back(lo, LOOKBACK), lo, hi, r);
    if lo < hi { OlderIs(l, before, limit); }
  }

  // ----- which attempts and checks a row has -----

  /** An event of this kind, of this request. */
  predicate Owned(e: Entry, request: string, kind: Event -> bool) {
    e.event.Some? && e.event.value.requestId == request && request != "" && kind(e.event.value)
  }

  /** Where the entries of this kind and request stand. */
  function Places(entries: seq<Entry>, request: string, kind: Event -> bool): seq<nat> {
    if entries == [] then []
    else
      var n := |entries| - 1;
      var before := Places(entries[..n], request, kind);
      if Owned(entries[n], request, kind) then before + [n] else before
  }

  lemma {:induction false} PlacesAreOwned(entries: seq<Entry>, request: string, kind: Event -> bool)
    ensures var place := Places(entries, request, kind);
      forall i :: i in place <==> 0 <= i < |entries| && Owned(entries[i], request, kind)
  {
    if entries != [] {
      var n := |entries| - 1;
      PlacesAreOwned(entries[..n], request, kind);
      assert forall i :: 0 <= i < n ==> entries[..n][i] == entries[i];
    }
  }

  predicate Rising(place: seq<nat>, n: nat) {
    && (forall i :: 0 <= i < |place| ==> place[i] < n)
    && (forall i, j :: 0 <= i < j < |place| ==> place[i] < place[j])
  }

  lemma {:induction false} PlacesRise(entries: seq<Entry>, request: string, kind: Event -> bool)
    ensures Rising(Places(entries, request, kind), |entries|)
  {
    if entries != [] {
      var n := |entries| - 1;
      var before := Places(entries[..n], request, kind);
      PlacesRise(entries[..n], request, kind);
      assert Rising(before + [n], n + 1);
    }
  }

  /** What is selected are the request's own events, each of them once, in the order of the entries. */
  lemma {:induction false} OfIsExact(entries: seq<Entry>, request: string, kind: Event -> bool)
    ensures var (events, place) := (Of(entries, request, kind), Places(entries, request, kind));
      && |events| == |place|
      && (forall i :: 0 <= i < |place| ==> place[i] < |entries| && entries[place[i]].event == Some(events[i]))
      && (forall i, j :: 0 <= i < j < |place| ==> place[i] < place[j])
      && (forall i :: i in place <==> 0 <= i < |entries| && Owned(entries[i], request, kind))
  {
    PlacesAreOwned(entries, request, kind);
    PlacesRise(entries, request, kind);
    if entries != [] {
      var n := |entries| - 1;
      OfIsExact(entries[..n], request, kind);
      var before := Places(entries[..n], request, kind);
      assert forall i :: 0 <= i < |before| ==> entries[..n][before[i]] == entries[before[i]];
    }
  }

  lemma OfNothing(entries: seq<Entry>, request: string, kind: Event -> bool)
    ensures Of(entries, request, kind) == [] <==> forall i :: 0 <= i < |entries| ==> !Owned(entries[i], request, kind)
  {
    OfIsExact(entries, request, kind);
    var place := Places(entries, request, kind);
    assert place != [] ==> place[0] in place;
  }

  lemma NoneOwned(l: seq<Entry>, lo: nat, hi: nat, request: string, kind: Event -> bool)
    requires lo <= hi <= |l|
    ensures Of(l[lo..hi], request, kind) == [] <==> forall i :: lo <= i < hi ==> !Owned(l[i], request, kind)
  {
    OfNothing(l[lo..hi], request, kind);
    assert forall i :: 0 <= i < hi - lo ==> l[lo..hi][i] == l[lo + i];
    assert forall i :: lo <= i < hi ==> l[i] == l[lo..hi][i - lo];
  }

  lemma OfBackwards(entries: seq<Entry>, request: string, kind: Event -> bool)
    ensures Of(Reversed(entries), request, kind) == Reversed(Of(entries, request, kind))
  {
    OfReversed(entries, request, kind);
    var s := Of(Reversed(entries), request, kind);
    assert s == Reversed(Reversed(s));
  }

  lemma PageIsOf(rows: seq<Row>, l: seq<Entry>, before: Option<nat>, limit: nat, f: Filter, lookbackFails: bool, k: nat)
    requires Ordered(l) && limit > 0 && PageRows(rows, l, before, limit, f, lookbackFails) && k < |rows|
    ensures var hi := Below(l, before);
      var lo := Back(hi, 6 * limit);
      && lo < hi && Window(l, before, limit) == Reversed(l[lo..hi])
      && Older(l, Window(l, before, limit)) == Reversed(l[Back(lo, 1000)..lo])
  {
    var hi := Below(l, before);
    if Back(hi, 6 * limit) < hi { OlderIs(l, before, limit); }
  }

  /** The attempts of a row are its request's own, newest first: those on the page's window, or, when
      there are none, those among the thousand entries behind it. */
  lemma AttemptsAreOwn(rows: seq<Row>, l: seq<Entry>, before: Option<nat>, limit: nat, f: Filter, lookbackFails: bool, k: nat)
    requires Ordered(l) && limit > 0 && PageRows(rows, l, before, limit, f, lookbackFails) && k < |rows|
    ensures var hi := Below(l, before);
      var lo := Back(hi, 6 * limit);
      var r := rows[k].event.requestId;
      rows[k].attempts ==
        if (exists i :: lo <= i < hi && Owned(l[i], r, IsAttempt)) || lookbackFails then Reversed(Of(l[lo..hi], r, IsAttempt))
        else Reversed(Of(l[Back(lo, 1000)..lo], r, IsAttempt))
  {
    var hi := Below(l, before);
    var lo := Back(hi, 6 * limit);
    var r := rows[k].event.requestId;
    PageIsOf(rows, l, before, limit, f, lookbackFails, k);
    NoneOwned(l, lo, hi, r, IsAttempt);
    AttemptsAre(rows, FirstRows(Shown(l, before, limit, f), Reversed(l[lo..hi])), l, Back(lo, 1000), lo, hi, lookbackFails, k);
  }

  lemma AttemptsAre(rows: seq<Row>, first: seq<Row>, l: seq<Entry>, lo2: nat, lo: nat, hi: nat, lookbackFails: bool, k: nat)
    requires lo2 <= lo <= hi <= |l| && k < |rows| == |first|
    requires first[k].attempts == Of(Reversed(l[lo..hi]), first[k].event.requestId, IsAttempt)
    requires rows[k] == if lookbackFails then first[k] else FinalRow(first[k], first, Reversed(l[lo..hi]), Reversed(l[lo2..lo]))
    ensures var r := rows[k].event.requestId;
      rows[k].attempts ==
        if Of(l[lo..hi], r, IsAttempt) != [] || lookbackFails then Reversed(Of(l[lo..hi], r, IsAttempt))
        else Reversed(Of(l[lo2..lo], r, IsAttempt))
  {
    var r := rows[k].event.requestId;
    OfBackwards(l[lo..hi], r, IsAttempt);
    OfBackwards(l[lo2..lo], r, IsAttempt);
    if r == "" {
      OfNothing(l[lo..hi], r, IsAttempt);
      OfNothing(l[lo2..lo], r, IsAttempt);
    }
  }

  // how many checks do something
  ghost function CountOf(checks: seq<Event>, kind: Action -> bool): nat {
    |set i | 0 <= i < |checks| && kind(checks[i].action)|
  }

  lemma CountNone(kind: Action -> bool)
    ensures CountOf([], kind) == 0
  {
    var none: seq<Event> := [];
    var counted := set i | 0 <= i < |none| && kind(none[i].action);
    assert counted == {};
  }

  lemma CountNext(checks: seq<Event>, kind: Action -> bool)
    requires checks != []
    ensures CountOf(checks, kind)
         == CountOf(checks[..|checks| - 1], kind) + if kind(checks[|checks| - 1].action) then 1 else 0
  {
    var n := |checks| - 1;
    var counted := set i | 0 <= i < |checks| && kind(checks[i].action);
    var before := set i | 0 <= i < n && kind(checks[..n][i].action);
    assert counted == before + if kind(checks[n].action) then {n} else {};
  }

  predicate Withholds(a: Action) { a.QualityDegraded? }
  predicate Starts(a: Action) { a == QualityCheck(true) }
  predicate Finishes(a: Action) { a.QualityDegraded? || a == QualityCheck(false) }

  lemma {:induction false} TallyCounts(checks: seq<Event>)
    ensures var t := TallyOf(checks);
      && t.withheld == CountOf(checks, Withholds) && t.started == CountOf(checks, Starts)
      && t.finished == CountOf(checks, Finishes)
      && (t.concluded <==> exists i :: 0 <= i < |checks| && checks[i].action.QualityResolution?)
  {
    if checks == [] {
      CountNone(Withholds);
      CountNone(Starts);
      CountNone(Finishes);
    } else {
      TallyCounts(checks[..|checks| - 1]);
      CountNext(checks, Withholds);
      CountNext(checks, Starts);
      CountNext(checks, Finishes);
    }
  }

  /** When the look behind the window must happen: the row tells of a conclusion, of more withheld
      attempts or of more started or finished checks than these are. */
  lemma IncompleteExactly(e: Event, checks: seq<Event>)
    ensures Incomplete(e, checks) <==>
      || (e.resolved && forall i :: 0 <= i < |checks| ==> !checks[i].action.QualityResolution?)
      || CountOf(checks, Withholds) < e.withheld || CountOf(checks, Starts) < e.checked || CountOf(checks, Finishes) < e.checked
  {
    TallyCounts(checks);
  }

  /** Some row of the page is the row of this request and tells of checks that are not in the window. */
  predicate Wanting(rows: seq<Row>, request: string, window: seq<Event>) {
    exists j :: 0 <= j < |rows| && rows[j].event.requestId == request && request != "" && rows[j].event.isRequest
      && !IsQuality(rows[j].event) && (rows[j].event.resolved || rows[j].event.checked > 0)
      && Incomplete(rows[j].event, window)
  }

  lemma WantingIsLacking(rows: seq<Row>, l: seq<Entry>, lo: nat, hi: nat, request: string)
    requires lo <= hi <= |l|
    ensures AnyLacksChecks(rows, request, Reversed(l[lo..hi])) <==> Wanting(rows, request, Reversed(Of(l[lo..hi], request, IsQuality)))
  {
    OfBackwards(l[lo..hi], request, IsQuality);
  }

  lemma LackingIsOfEvents(rows: seq<Row>, first: seq<Row>, request: string, window: seq<Entry>)
    requires |rows| == |first| && forall k :: 0 <= k < |rows| ==> rows[k].event == first[k].event
    ensures AnyLacksChecks(rows, request, window) <==> AnyLacksChecks(first, request, window)
  {
    forall k | 0 <= k < |rows| ensures LacksChecks(rows[k], window) == LacksChecks(first[k], window) {}
  }

  /** The checks of a row: from behind the window as well exactly if the page wants some, and else those
      in the window, on the row of a request. */
  lemma ChecksAreOwn(rows: seq<Row>, l: seq<Entry>, before: Option<nat>, limit: nat, f: Filter, lookbackFails: bool, k: nat)
    requires Ordered(l) && limit > 0 && PageRows(rows, l, before, limit, f, lookbackFails) && k < |rows|
    ensures var hi := Below(l, before);
      var lo := Back(hi, 6 * limit);
      var r := rows[k].event.requestId;
      var seen, all := Of(l[lo..hi], r, IsQuality), Of(l[Back(lo, 1000)..hi], r, IsQuality);
      rows[k].quality ==
        if !lookbackFails && Wanting(rows, r, Reversed(seen)) then if all == [] then None else Some(all)
        else if rows[k].event.isRequest && seen != [] then Some(seen) else None
  {
    var hi := Below(l, before);
    var lo := Back(hi, 6 * limit);
    var window := Reversed(l[lo..hi]);
    var first := FirstRows(Shown(l, before, limit, f), window);
    PageIsOf(rows, l, before, limit, f, lookbackFails, k);
    WantingIsLacking(rows, l, lo, hi, rows[k].event.requestId);
    if !lookbackFails { LackingIsOfEvents(rows, first, rows[k].event.requestId, window); }
    ChecksAre(first[k], rows[k], first, l, Back(lo, 1000), lo, hi, lookbackFails);
  }

  lemma ChecksAre(before: Row, row: Row, first: seq<Row>, l: seq<Entry>, lo2: nat, lo: nat, hi: nat, lookbackFails: bool)
    requires lo2 <= lo <= hi <= |l|
    requires
      var checks := Of(Reversed(l[lo..hi]), before.event.requestId, IsQuality);
      before.quality == if checks != [] && before.event.isRequest then Some(Reversed(checks)) else None
    requires row == if lookbackFails then before else FinalRow(before, first, Reversed(l[lo..hi]), Reversed(l[lo2..lo]))
    ensures var r := row.event.requestId;
      var seen, all := Of(l[lo..hi], r, IsQuality), Of(l[lo2..hi], r, IsQuality);
      row.quality ==
        if !lookbackFails && AnyLacksChecks(first, r, Reversed(l[lo..hi])) then if all == [] then None else Some(all)
        else if row.event.isRequest && seen != [] then Some(seen) else None
  {
    TwoScans(l, lo2, lo, hi, row.event.requestId);
  }

  /** The two scans turned round are one stretch of the ledger. */
  lemma TwoScans(l: seq<Entry>, lo2: nat, lo: nat, hi: nat, request: string)
    requires lo2 <= lo <= hi <= |l|
    ensures var near, far := Of(Reversed(l[lo..hi]), request, IsQuality), Of(Reversed(l[lo2..lo]), request, IsQuality);
      && Reversed(near) == Of(l[lo..hi], request, IsQuality) && |Reversed(near)| == |near|
      && Reversed(near + far) == Of(l[lo2..hi], request, IsQuality) && |Reversed(near + far)| == |near + far|
  {
    ReversedSplit(Of(Reversed(l[lo..hi]), request, IsQuality), Of(Reversed(l[lo2..lo]), request, IsQuality));
    OfReversed(l[lo..hi], request, IsQuality);
    OfReversed(l[lo2..lo], request, IsQuality);
    assert l[lo2..hi] == l[lo2..lo] + l[lo..hi];
    OfSplit(l[lo2..lo], l[lo..hi], request, IsQuality);
  }

  // ----- the code -----

  method Chronological(events: seq<Event>) returns (out: seq<Event>)
    ensures out == Reversed(events)
  {
    if events == [] {
      return [];
    }
    var a := new Event[|events|](i => events[0]);
    for i := 0 to |events|
      invariant forall j :: 0 <= j < i ==> a[|events| - 1 - j] == events[j]
    {
      a[|events| - 1 - i] := events[i];
    }
    assert forall j :: 0 <= j < |events| ==> a[j] == events[|events| - 1 - j] by {
      forall j | 0 <= j < |events| ensures a[j] == events[|events| - 1 - j] {
        assert a[|events| - 1 - (|events| - 1 - j)] == events[|events| - 1 - j];
      }
    }
    out := a[..];
  }

  method QualityChecksIncomplete(e: Event, checks: seq<Event>) returns (incomplete: bool)
    ensures incomplete == Incomplete(e, checks)
  {
    var withheld, started, finished, concluded := 0, 0, 0, false;
    for i := 0 to |checks|
      invariant Tally(withheld, started, finished, concluded) == TallyOf(checks[..i])
    {
      assert checks[..i + 1][..i] == checks[..i];
      match checks[i].action {
        case QualityDegraded => withheld, finished := withheld + 1, finished + 1;
        case QualityCheck(checking) =>
          if checking { started := started + 1; } else { finished := finished + 1; }
        case QualityResolution => concluded := true;
        case _ =>
      }
    }
    assert checks[..|checks|] == checks;
    return (e.resolved && !concluded) || withheld < e.withheld || started < e.checked || finished < e.checked;
  }

  type Joins = map<string, seq<Event>>

  function At(m: Joins, request: string): seq<Event> { if request in m then m[request] else [] }

  /** Which requests a scan collects for. */
  datatype Wanted = All | Only(requests: set<string>)

  predicate Wants(w: Wanted, request: string) { w.All? || request in w.requests }

  /** The joins after a scan. */
  ghost predicate Gathered(m: Joins, m0: Joins, entries: seq<Entry>, w: Wanted, kind: Event -> bool) {
    forall r :: At(m, r) == At(m0, r) + (if Wants(w, r) then Of(entries, r, kind) else [])
  }

  function Joined(m: Joins, e: Entry, w: Wanted, kind: Event -> bool): Joins {
    if e.event.Some? && e.event.value.requestId != "" && kind(e.event.value) && Wants(w, e.event.value.requestId) then
      m[e.event.value.requestId := At(m, e.event.value.requestId) + [e.event.value]]
    else m
  }

  lemma GatherAt(m: Joins, e: Entry, w: Wanted, kind: Event -> bool, r: string)
    ensures At(Joined(m, e, w, kind), r) == At(m, r) + (if Wants(w, r) then OfOne(e, r, kind) else [])
  {
  }

  lemma GatherOne(m: Joins, m0: Joins, seen: seq<Entry>, e: Entry, w: Wanted, kind: Event -> bool)
    requires Gathered(m, m0, seen, w, kind)
    ensures Gathered(Joined(m, e, w, kind), m0, seen + [e], w, kind)
  {
    assert (seen + [e])[..|seen|] == seen;
    forall r ensures At(Joined(m, e, w, kind), r) == At(m0, r) + (if Wants(w, r) then Of(seen + [e], r, kind) else []) {
      GatherAt(m, e, w, kind, r);
      assert At(m, r) == At(m0, r) + (if Wants(w, r) then Of(seen, r, kind) else []);
      if Wants(w, r) { Assoc(At(m0, r), Of(seen, r, kind), OfOne(e, r, kind)); }
    }
  }

  method CollectOne(entry: Entry, attempts0: Joins, forAttempts: Wanted, quality0: Joins, forQuality: Wanted)
    returns (attempts: Joins, quality: Joins)
    ensures attempts == Joined(attempts0, entry, forAttempts, IsAttempt)
    ensures quality == Joined(quality0, entry, forQuality, IsQuality)
  {
    attempts, quality := attempts0, quality0;
    if entry.event.Some? && entry.event.value.requestId != "" {
      var e := entry.event.value;
      if e.action.UpstreamAttempt? {
        if Wants(forAttempts, e.requestId) {
          attempts := attempts[e.requestId := At(attempts, e.requestId) + [e]];
        }
      } else if IsQuality(e) && Wants(forQuality, e.requestId) {
        quality := quality[e.requestId := At(quality, e.requestId) + [e]];
      }
    }
  }

  /** Appends the attempts and checks that a scan meets. */
  method Collect(entries: seq<Entry>, attempts0: Joins, forAttempts: Wanted, quality0: Joins, forQuality: Wanted)
    returns (attempts: Joins, quality: Joins)
    ensures Gathered(attempts, attempts0, entries, forAttempts, IsAttempt)
    ensures Gathered(quality, quality0, entries, forQuality, IsQuality)
  {
    attempts, quality := attempts0, quality0;
    for i := 0 to |entries|
      invariant Gathered(attempts, attempts0, entries[..i], forAttempts, IsAttempt)
      invariant Gathered(quality, quality0, entries[..i], forQuality, IsQuality)
    {
      GatherOne(attempts, attempts0, entries[..i], entries[i], forAttempts, IsAttempt);
      GatherOne(quality, quality0, entries[..i], entries[i], forQuality, IsQuality);
      assert entries[..i + 1] == entries[..i] + [entries[i]];
      attempts, quality := CollectOne(entries[i], attempts, forAttempts, quality, forQuality);
    }
    assert entries[..|entries|] == entries;
  }

  // ----- emitting the rows -----

  function Kept(entries: seq<Entry>, f: Filter): (r: seq<Entry>)
    ensures forall e :: e in r ==> e.event.Some?
  {
    if entries == [] then [] else Kept(entries[..|entries| - 1], f) + MatchingOne(entries[|entries| - 1], f)
  }

  lemma {:induction false} KeptSplit(a: seq<Entry>, b: seq<Entry>, f: Filter)
    ensures Kept(a + b, f) == Kept(a, f) + Kept(b, f)
    decreases |b|
  {
    if b == [] {
      assert a + b == a;
    } else {
      var b', e := b[..|b| - 1], b[|b| - 1];
      assert (a + b)[..|a + b| - 1] == a + b' && (a + b)[|a + b| - 1] == e;
      KeptSplit(a, b', f);
      Assoc(Kept(a, f), Kept(b', f), MatchingOne(e, f));
    }
  }

  lemma {:induction false} KeptIsMatching(l: seq<Entry>, f: Filter)
    ensures Kept(Reversed(l), f) == Matching(l, f)
    decreases |l|
  {
    if l != [] {
      var n := |l| - 1;
      KeptIsMatching(l[..n], f);
      assert l == l[..n] + [l[n]];
      ReversedSplit(l[..n], [l[n]]);
      assert Reversed([l[n]]) == [l[n]];
      KeptSplit([l[n]], Reversed(l[..n]), f);
      assert Kept([l[n]], f) == MatchingOne(l[n], f);
    }
  }

  /** The joins hold what the page's window knows. */
  ghost predicate Known(attempts: Joins, quality: Joins, window: seq<Entry>) {
    && (forall r :: At(attempts, r) == Of(window, r, IsAttempt))
    && (forall r :: At(quality, r) == Of(window, r, IsQuality))
  }

  method EmitOne(entry: Entry, ghost window: seq<Entry>, f: Filter, attempts: Joins, quality: Joins) returns (row: Option<Row>)
    requires Known(attempts, quality, window)
    ensures row == if Matches(entry, f) then Some(FirstRow(entry, window)) else None
  {
    if entry.event.None? || entry.event.value.action.UpstreamAttempt? || !f(entry.event.value) {
      return None;
    }
    var e := entry.event.value;
    var checks := At(quality, e.requestId);
    var timeline: Option<seq<Event>> := None;
    if checks != [] && e.isRequest {
      var oldestFirst := Chronological(checks);
      timeline := Some(oldestFirst);
    }
    assert At(attempts, e.requestId) == Of(window, e.requestId, IsAttempt);
    assert At(quality, e.requestId) == Of(window, e.requestId, IsQuality);
    return Some(Row(entry.id, e, At(attempts, e.requestId), timeline));
  }

  method Emit(entries: seq<Entry>, limit: nat, f: Filter, attempts: Joins, quality: Joins) returns (rows: seq<Row>)
    requires limit > 0 && Known(attempts, quality, entries)
    ensures rows == FirstRows(Take(Kept(entries, f), limit), entries)
  {
    rows := [];
    var i := 0;
    while i < |entries| && |rows| < limit
      invariant i <= |entries| && |rows| <= limit
      invariant rows == FirstRows(Kept(entries[..i], f), entries)
    {
      KeptMore(entries, i, f);
      var row := EmitOne(entries[i], entries, f, attempts, quality);
      if row.Some? {
        FirstRowsMore(Kept(entries[..i], f), entries[i], entries);
        rows := rows + [row.value];
      }
      i := i + 1;
    }
    KeptSoFar(entries, i, limit, f);
  }

  lemma KeptMore(entries: seq<Entry>, i: nat, f: Filter)
    requires i < |entries|
    ensures Kept(entries[..i + 1], f) == Kept(entries[..i], f) + MatchingOne(entries[i], f)
  {
    assert entries[..i + 1][..i] == entries[..i];
  }

  lemma FirstRowsMore(shown: seq<Entry>, e: Entry, window: seq<Entry>)
    requires Decoded(shown) && e.event.Some?
    ensures Decoded(shown + [e]) && FirstRows(shown + [e], window) == FirstRows(shown, window) + [FirstRow(e, window)]
  {
  }

  lemma KeptSoFar(entries: seq<Entry>, i: nat, limit: nat, f: Filter)
    requires i <= |entries| && |Kept(entries[..i], f)| <= limit
    requires i == |entries| || |Kept(entries[..i], f)| == limit
    ensures Take(Kept(entries, f), limit) == Kept(entries[..i], f)
  {
    assert entries == entries[..i] + entries[i..];
    KeptSplit(entries[..i], entries[i..], f);
    assert i == |entries| ==> entries[i..] == [];
  }

  /** The requests on the page whose attempts or checks are not all in the window. */
  method FindMissing(rows: seq<Row>, ghost window: seq<Entry>, attempts: Joins, quality: Joins)
    returns (missing: set<string>, missingQuality: set<string>)
    requires Known(attempts, quality, window)
    ensures forall r :: r in missing <==> exists k :: 0 <= k < |rows| && rows[k].event.requestId == r && LacksAttempts(rows[k], window)
    ensures forall r :: r in missingQuality <==> AnyLacksChecks(rows, r, window)
  {
    missing, missingQuality := {}, {};
    for i := 0 to |rows|
      invariant forall r :: r in missing <==> exists k :: 0 <= k < i && rows[k].event.requestId == r && LacksAttempts(rows[k], window)
      invariant forall r :: r in missingQuality <==> exists k :: 0 <= k < i && rows[k].event.requestId == r && LacksChecks(rows[k], window)
    {
      var e := rows[i].event;
      var r := e.requestId;
      assert At(attempts, r) == Of(window, r, IsAttempt) && At(quality, r) == Of(window, r, IsQuality);
      if r != "" {
        if At(attempts, r) == [] {
          missing := missing + {r};
        }
        if e.isRequest && !IsQuality(e) && (e.resolved || e.checked > 0) {
          var incomplete := QualityChecksIncomplete(e, At(quality, r));
          if incomplete {
            missingQuality := missingQuality + {r};
          }
        }
      }
    }
  }

  /** The joins after the look behind the window. */
  ghost predicate Extended(attempts: Joins, quality: Joins, attempts0: Joins, quality0: Joins, rows: seq<Row>,
                           window: seq<Entry>, older: seq<Entry>, missing: set<string>, missingQuality: set<string>)
  {
    && Known(attempts0, quality0, window)
    && (forall r :: r in missing <==> exists k :: 0 <= k < |rows| && rows[k].event.requestId == r && LacksAttempts(rows[k], window))
    && (forall r :: r in missingQuality <==> AnyLacksChecks(rows, r, window))
    && Gathered(attempts, attempts0, older, Only(missing), IsAttempt)
    && Gathered(quality, quality0, older, Only(missingQuality), IsQuality)
  }

  method AmendOne(ghost rows: seq<Row>, ghost i: nat, row0: Row, ghost shown: seq<Entry>, ghost window: seq<Entry>,
                  ghost older: seq<Entry>, ghost attempts0: Joins, attempts: Joins, ghost missing: set<string>,
                  ghost quality0: Joins, quality: Joins, missingQuality: set<string>)
    returns (row: Row)
    requires Decoded(shown) && rows == FirstRows(shown, window) && i < |rows| && row0 == rows[i]
    requires Extended(attempts, quality, attempts0, quality0, rows, window, older, missing, missingQuality)
    ensures row == FinalRow(row0, rows, window, older)
  {
    row := row0;
    var r := row.event.requestId;
    AmendedAttempts(rows, i, shown, window, older, attempts0, quality0, attempts, missing);
    assert At(quality0, r) == Of(window, r, IsQuality);
    assert At(quality, r) == At(quality0, r) + (if Wants(Only(missingQuality), r) then Of(older, r, IsQuality) else []);
    if At(attempts, r) != [] {
      row := row.(attempts := At(attempts, r));
    }
    var checks := At(quality, r);
    if checks != [] && r in missingQuality {
      var timeline := Chronological(checks);
      row := row.(quality := Some(timeline));
    }
  }

  method Amend(rows0: seq<Row>, ghost shown: seq<Entry>, ghost window: seq<Entry>, ghost older: seq<Entry>,
               ghost attempts0: Joins, attempts: Joins, ghost missing: set<string>,
               ghost quality0: Joins, quality: Joins, missingQuality: set<string>)
    returns (rows: seq<Row>)
    requires Decoded(shown) && rows0 == FirstRows(shown, window)
    requires Extended(attempts, quality, attempts0, quality0, rows0, window, older, missing, missingQuality)
    ensures FinalRows(rows, rows0, window, older)
  {
    rows := [];
    for i := 0 to |rows0|
      invariant |rows| == i && forall k :: 0 <= k < i ==> rows[k] == FinalRow(rows0[k], rows0, window, older)
    {
      var row := AmendOne(rows0, i, rows0[i], shown, window, older, attempts0, attempts, missing, quality0, quality, missingQuality);
      rows := rows + [row];
    }
  }

  lemma AmendedAttempts(rows: seq<Row>, i: nat, shown: seq<Entry>, window: seq<Entry>, older: seq<Entry>,
                        attempts0: Joins, quality0: Joins, attempts: Joins, missing: set<string>)
    requires Decoded(shown) && rows == FirstRows(shown, window) && i < |rows| && Known(attempts0, quality0, window)
    requires forall r :: r in missing <==> exists k :: 0 <= k < |rows| && rows[k].event.requestId == r && LacksAttempts(rows[k], window)
    requires Gathered(attempts, attempts0, older, Only(missing), IsAttempt)
    ensures var r := rows[i].event.requestId;
            (if At(attempts, r) != [] then At(attempts, r) else rows[i].attempts)
            == if LacksAttempts(rows[i], window) then Of(older, r, IsAttempt) else rows[i].attempts
  {
    var r := rows[i].event.requestId;
    assert rows[i] == FirstRow(shown[i], window);
    assert At(attempts0, r) == Of(window, r, IsAttempt);
    assert At(attempts, r) == At(attempts0, r) + (if r in missing then Of(older, r, IsAttempt) else []);
    assert r in missing <==> LacksAttempts(rows[i], window);
  }

  /** The first two passes, over the page's window. */
  method FirstPage(l: seq<Entry>, before: Option<nat>, limit: nat, f: Filter)
    returns (entries: seq<Entry>, rows: seq<Row>, attempts: Joins, quality: Joins)
    requires limit > 0
    ensures entries == Window(l, before, limit) && Known(attempts, quality, entries)
    ensures Decoded(Shown(l, before, limit, f)) && rows == FirstRows(Shown(l, before, limit, f), entries)
  {
    entries := XRevRange(l, before, 6 * limit);
    attempts, quality := Collect(entries, map[], All, map[], All);
    KnownAfterScan(attempts, quality, entries);
    rows := Emit(entries, limit, f, attempts, quality);
    ghost var hi := Below(l, before);
    KeptIsMatching(l[Back(hi, 6 * limit)..hi], f);
  }

  /** The look behind the window, for what is missing on the page. */
  method LookBack(l: seq<Entry>, rows0: seq<Row>, ghost shown: seq<Entry>, entries: seq<Entry>, attempts: Joins, quality: Joins)
    returns (rows: seq<Row>)
    requires Decoded(shown) && rows0 == FirstRows(shown, entries) && Known(attempts, quality, entries)
    ensures FinalRows(rows, rows0, entries, Older(l, entries))
  {
    var missing, missingQuality := FindMissing(rows0, entries, attempts, quality);
    var older := Older(l, entries);
    var allAttempts, allQuality := Collect(older, attempts, Only(missing), quality, Only(missingQuality));
    rows := Amend(rows0, shown, entries, older, attempts, allAttempts, missing, quality, allQuality, missingQuality);
  }

  /** One page of the list.  `lookbackFails` is the outcome of the second read. */
  method WriteJournalList(l: seq<Entry>, before: Option<nat>, limit: nat, f: Filter, lookbackFails: bool)
    returns (rows: seq<Row>, next: Option<nat>)
    requires Ordered(l) && limit > 0
    ensures PageRows(rows, l, before, limit, f, lookbackFails)
    ensures next == NextCursor(l, before, limit, f)
  {
    var entries, first, attempts, quality := FirstPage(l, before, limit, f);
    next := Cursor(l, before, limit, f, first, entries);
    rows := first;
    if !lookbackFails {
      rows := LookBack(l, first, Shown(l, before, limit, f), entries, attempts, quality);
    }
  }

  method Cursor(ghost l: seq<Entry>, ghost before: Option<nat>, limit: nat, ghost f: Filter, rows: seq<Row>, entries: seq<Entry>)
    returns (next: Option<nat>)
    requires limit > 0 && entries == Window(l, before, limit)
    requires Decoded(Shown(l, before, limit, f)) && rows == FirstRows(Shown(l, before, limit, f), entries)
    ensures next == NextCursor(l, before, limit, f)
  {
    if |rows| >= limit {
      next := Some(rows[|rows| - 1].id);
    } else if |entries| >= 6 * limit {
      next := Some(entries[|entries| - 1].id);
    } else {
      next := None;
    }
  }

  lemma KnownAfterScan(attempts: Joins, quality: Joins, entries: seq<Entry>)
    requires Gathered(attempts, map[], entries, All, IsAttempt) && Gathered(quality, map[], entries, All, IsQuality)
    ensures Known(attempts, quality, entries)
  {
    forall r ensures At(attempts, r) == Of(entries, r, IsAttempt) && At(quality, r) == Of(entries, r, IsQuality) {
      assert At(attempts, r) == At(map[], r) + Of(entries, r, IsAttempt);
      assert At(quality, r) == At(map[], r) + Of(entries, r, IsQuality);
    }
  }
}
