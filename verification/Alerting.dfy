/** internal/alerting/alerting.go: snapshots of channel health become alerts that fire and recover.

    Rates are real numbers.  Titles and details are kept as the numbers they are made from. */
module Alerting {
  import opened Text

  datatype Severity = Critical | Warning

  datatype Detail = NeedLogin(accounts: int) | NoAccounts(enabled: int) | BadRate(rate: real, requests: int, failed: int) | Recovered

  datatype Alert = Alert(key: string, severity: Severity, channel: string, detail: Detail)

  datatype Channel = Channel(
    name: string, requests: int, failed: int, samples: int, rate: real, enabled: int, available: int, needingLogin: int)

  datatype Rules = Rules(
    minRequests: int, minFailures: int, warning: real, critical: real, margin: real, requireAccounts: bool)

  predicate ValidRules(r: Rules) {
    && r.minRequests >= 0 && r.minFailures >= 0
    && 0.0 < r.critical < r.warning <= 1.0 && 0.0 <= r.margin <= 0.5 && r.warning + r.margin <= 1.0
  }

  // ----- one snapshot -----

  predicate Alertable(name: string) {
    var n := ToLower(Trim(name));
    n != "" && n != "http" && n != "probe"
  }

  function CredentialKey(name: string): string { "credential:" + name }
  function PoolKey(name: string): string { "pool-empty:" + name }
  function RateKey(name: string): string { "success-rate:" + name }

  function AtLeastOne(n: int): int { if n <= 0 then 1 else n }

  function Margin(r: Rules): real { if r.margin < 0.0 then 0.0 else r.margin }

  predicate Judged(c: Channel, r: Rules) { c.requests >= AtLeastOne(r.minRequests) && c.samples > 0 }

  /** The success-rate rule: the alert it raises, if any. */
  function RateAlert(c: Channel, name: string, firing: bool, r: Rules): Option<Alert> {
    if !Judged(c, r) then None
    else
      var detail := BadRate(c.rate, c.requests, c.failed);
      var held := firing && c.rate < r.warning + Margin(r);
      if c.rate < r.critical then Some(Alert(RateKey(name), Critical, name, detail))
      else if (firing || c.failed >= AtLeastOne(r.minFailures)) && (c.rate < r.warning || held) then
        Some(Alert(RateKey(name), Warning, name, detail))
      else None
  }

  type Alerts = map<string, Alert>

  function One(a: Option<Alert>): Alerts { if a.Some? then map[a.value.key := a.value] else map[] }

  function RaisedBy(c: Channel, previous: Alerts, r: Rules): Alerts {
    var name := Trim(c.name);
    if !Alertable(name) then map[]
    else
      One(if c.needingLogin > 0 then Some(Alert(CredentialKey(name), Critical, name, NeedLogin(c.needingLogin))) else None)
      + One(if r.requireAccounts && c.enabled > 0 && c.available == 0 then
              Some(Alert(PoolKey(name), Critical, name, NoAccounts(c.enabled))) else None)
      + One(RateAlert(c, name, RateKey(name) in previous, r))
  }

  /** Everything a snapshot raises; of two channels with one name the later one decides. */
  function Raised(channels: seq<Channel>, previous: Alerts, r: Rules): Alerts {
    if channels == [] then map[]
    else Raised(channels[..|channels| - 1], previous, r) + RaisedBy(channels[|channels| - 1], previous, r)
  }

  function NewlyFiring(current: Alerts, previous: Alerts): Alerts { current - previous.Keys }

  function NewlyRecovered(current: Alerts, previous: Alerts): Alerts {
    map k | k in previous && k !in current :: previous[k].(detail := Recovered)
  }

  predicate Keyed(m: Alerts) { forall k :: k in m ==> m[k].key == k }

  lemma KeysAreApart(m: string, n: string)
    ensures CredentialKey(m) != PoolKey(n) && CredentialKey(m) != RateKey(n) && PoolKey(m) != RateKey(n)
    ensures RateKey(m) == RateKey(n) <==> m == n
  {
    assert CredentialKey(m)[0] == 'c' && PoolKey(n)[0] == PoolKey(m)[0] == 'p' && RateKey(n)[0] == 's';
    assert RateKey(m)[13..] == m && RateKey(n)[13..] == n;
  }

  lemma RaisedByIsKeyed(c: Channel, previous: Alerts, r: Rules)
    ensures Keyed(RaisedBy(c, previous, r))
  {
  }

  lemma {:induction false} RaisedIsKeyed(channels: seq<Channel>, previous: Alerts, r: Rules)
    ensures Keyed(Raised(channels, previous, r))
  {
    if channels != [] {
      RaisedIsKeyed(channels[..|channels| - 1], previous, r);
      RaisedByIsKeyed(channels[|channels| - 1], previous, r);
    }
  }

  /** A key is raised when some channel raises it. */
  lemma {:induction false} RaisedBySome(channels: seq<Channel>, previous: Alerts, r: Rules, key: string)
    ensures key in Raised(channels, previous, r) <==>
            exists i :: 0 <= i < |channels| && key in RaisedBy(channels[i], previous, r)
  {
    if channels != [] {
      var n := |channels| - 1;
      RaisedBySome(channels[..n], previous, r, key);
      assert forall i :: 0 <= i < n ==> channels[..n][i] == channels[i];
      var older, last := Raised(channels[..n], previous, r), RaisedBy(channels[n], previous, r);
      assert key in older + last <==> key in older || key in last;
    }
  }

  function Merged(ms: seq<Alerts>): Alerts {
    if ms == [] then map[] else Merged(ms[..|ms| - 1]) + ms[|ms| - 1]
  }

  lemma {:induction false} LastMapDecides(ms: seq<Alerts>, key: string) returns (i: nat)
    requires key in Merged(ms)
    ensures i < |ms| && key in ms[i] && Merged(ms)[key] == ms[i][key] && forall j :: i < j < |ms| ==> key !in ms[j]
  {
    var n := |ms| - 1;
    if key in ms[n] {
      i := n;
    } else {
      i := LastMapDecides(ms[..n], key);
      assert forall j :: 0 <= j < n ==> ms[..n][j] == ms[j];
    }
  }

  function Each(channels: seq<Channel>, previous: Alerts, r: Rules): seq<Alerts> {
    seq(|channels|, i requires 0 <= i < |channels| => RaisedBy(channels[i], previous, r))
  }

  lemma {:induction false} RaisedIsMerged(channels: seq<Channel>, previous: Alerts, r: Rules)
    ensures Raised(channels, previous, r) == Merged(Each(channels, previous, r))
  {
    if channels != [] {
      RaisedIsMerged(channels[..|channels| - 1], previous, r);
      EachNext(channels, previous, r);
    }
  }

  lemma EachNext(channels: seq<Channel>, previous: Alerts, r: Rules)
    requires channels != []
    ensures var (n, each) := (|channels| - 1, Each(channels, previous, r));
      |each| == n + 1 && each[..n] == Each(channels[..n], previous, r) && each[n] == RaisedBy(channels[n], previous, r)
  {
    var n := |channels| - 1;
    forall i | 0 <= i < n ensures Each(channels, previous, r)[i] == Each(channels[..n], previous, r)[i] {
      assert channels[..n][i] == channels[i];
    }
  }

  /** The last channel that raises a key decides what it says. */
  lemma LastDecides(channels: seq<Channel>, previous: Alerts, r: Rules, key: string) returns (i: nat)
    requires key in Raised(channels, previous, r)
    ensures i < |channels| && key in RaisedBy(channels[i], previous, r)
    ensures Raised(channels, previous, r)[key] == RaisedBy(channels[i], previous, r)[key]
    ensures forall j :: i < j < |channels| ==> key !in RaisedBy(channels[j], previous, r)
  {
    var ms := Each(channels, previous, r);
    RaisedIsMerged(channels, previous, r);
    i := LastMapDecides(ms, key);
    forall j | i < j < |channels| ensures key !in RaisedBy(channels[j], previous, r) {
      assert key !in ms[j];
    }
  }

  /** Which alerts a channel raises, and how severe they are. */
  lemma RaisedExactly(c: Channel, previous: Alerts, r: Rules, name: string)
    ensures var raised := RaisedBy(c, previous, r);
      var about := Trim(c.name) == name && ToLower(Trim(name)) != "" && ToLower(Trim(name)) != "http" && ToLower(Trim(name)) != "probe";
      && ("credential:" + name in raised <==> about && c.needingLogin > 0)
      && ("pool-empty:" + name in raised <==> about && r.requireAccounts && c.enabled > 0 && c.available == 0)
      && ("success-rate:" + name in raised ==> about && c.requests >= r.minRequests && c.requests > 0 && c.samples > 0)
      && ("credential:" + name in raised ==>
            raised["credential:" + name] == Alert("credential:" + name, Critical, name, NeedLogin(c.needingLogin)))
      && ("pool-empty:" + name in raised ==>
            raised["pool-empty:" + name] == Alert("pool-empty:" + name, Critical, name, NoAccounts(c.enabled)))
      && ("success-rate:" + name in raised ==>
            raised["success-rate:" + name]
            == Alert("success-rate:" + name, if c.rate < r.critical then Critical else Warning, name, BadRate(c.rate, c.requests, c.failed)))
  {
    KeysAreApart(Trim(c.name), name);
    KeysAreApart(name, Trim(c.name));
    NamesAreKept(Trim(c.name), name);
  }

  lemma NamesAreKept(m: string, n: string)
    ensures CredentialKey(m) == CredentialKey(n) <==> m == n
    ensures PoolKey(m) == PoolKey(n) <==> m == n
  {
    assert CredentialKey(m)[11..] == m && CredentialKey(n)[11..] == n;
    assert PoolKey(m)[11..] == m && PoolKey(n)[11..] == n;
  }

  /** Nothing else is raised. */
  lemma OnlyThreeKeys(c: Channel, previous: Alerts, r: Rules, key: string)
    requires key in RaisedBy(c, previous, r)
    ensures key in {"credential:" + Trim(c.name), "pool-empty:" + Trim(c.name), "success-rate:" + Trim(c.name)}
  {
  }

  /** Accounts that need a login are announced exactly when there are some, and as critical. */
  lemma CredentialAlertExactly(channels: seq<Channel>, previous: Alerts, r: Rules, name: string)
    ensures var key := "credential:" + name;
      && (key in Raised(channels, previous, r) <==>
            exists i :: 0 <= i < |channels| && About(channels[i], name) && channels[i].needingLogin > 0)
      && (key in Raised(channels, previous, r) ==> Raised(channels, previous, r)[key].severity == Critical)
  {
    var key := "credential:" + name;
    RaisedBySome(channels, previous, r, key);
    forall i | 0 <= i < |channels|
      ensures key in RaisedBy(channels[i], previous, r) <==> About(channels[i], name) && channels[i].needingLogin > 0
      ensures key in RaisedBy(channels[i], previous, r) ==> RaisedBy(channels[i], previous, r)[key].severity == Critical
    {
      RaisedExactly(channels[i], previous, r, name);
    }
    if key in Raised(channels, previous, r) { var i := LastDecides(channels, previous, r, key); }
  }

  /** An empty pool is announced exactly when the rules ask for it and no enabled account is available. */
  lemma PoolAlertExactly(channels: seq<Channel>, previous: Alerts, r: Rules, name: string)
    ensures var key := "pool-empty:" + name;
      && (key in Raised(channels, previous, r) <==>
            r.requireAccounts &&
            exists i :: 0 <= i < |channels| && About(channels[i], name) && channels[i].enabled > 0 && channels[i].available == 0)
      && (key in Raised(channels, previous, r) ==> Raised(channels, previous, r)[key].severity == Critical)
  {
    var key := "pool-empty:" + name;
    RaisedBySome(channels, previous, r, key);
    forall i | 0 <= i < |channels|
      ensures key in RaisedBy(channels[i], previous, r) <==>
        r.requireAccounts && About(channels[i], name) && channels[i].enabled > 0 && channels[i].available == 0
      ensures key in RaisedBy(channels[i], previous, r) ==> RaisedBy(channels[i], previous, r)[key].severity == Critical
    {
      RaisedExactly(channels[i], previous, r, name);
    }
    if key in Raised(channels, previous, r) { var i := LastDecides(channels, previous, r, key); }
  }

  // ----- hysteresis -----

  /** The channels of a snapshot that the rate alert of `name` is about. */
  predicate About(c: Channel, name: string) { Trim(c.name) == name && Alertable(name) }

  lemma RateKeyIsRaised(c: Channel, previous: Alerts, r: Rules, name: string)
    ensures RateKey(name) in RaisedBy(c, previous, r) <==>
            About(c, name) && RateAlert(c, name, RateKey(name) in previous, r).Some?
  {
    KeysAreApart(Trim(c.name), name);
    KeysAreApart(name, Trim(c.name));
  }

  /** A rate alert recovers only when every channel it is about has either too little traffic to be
      judged or a rate at or above the warning threshold plus the margin, and is raised again only
      from below the warning threshold. */
  lemma RateRecoversAboveMargin(channels: seq<Channel>, previous: Alerts, r: Rules, name: string)
    requires RateKey(name) in previous
    ensures RateKey(name) !in Raised(channels, previous, r) <==>
            forall i :: 0 <= i < |channels| && About(channels[i], name) && Judged(channels[i], r) ==>
              channels[i].rate >= r.warning && channels[i].rate >= r.warning + Margin(r) && channels[i].rate >= r.critical
  {
    RaisedBySome(channels, previous, r, RateKey(name));
    forall i | 0 <= i < |channels| ensures RateKey(name) in RaisedBy(channels[i], previous, r) <==>
        About(channels[i], name) && RateAlert(channels[i], name, true, r).Some?
    {
      RateKeyIsRaised(channels[i], previous, r, name);
    }
  }

  lemma RateFiresBelowWarning(channels: seq<Channel>, previous: Alerts, r: Rules, name: string)
    requires RateKey(name) !in previous
    ensures RateKey(name) in Raised(channels, previous, r) <==>
            exists i :: 0 <= i < |channels| && About(channels[i], name) && Judged(channels[i], r) &&
              (channels[i].rate < r.critical || (channels[i].rate < r.warning && channels[i].failed >= AtLeastOne(r.minFailures)))
  {
    RaisedBySome(channels, previous, r, RateKey(name));
    forall i | 0 <= i < |channels| ensures RateKey(name) in RaisedBy(channels[i], previous, r) <==>
        About(channels[i], name) && RateAlert(channels[i], name, false, r).Some?
    {
      RateKeyIsRaised(channels[i], previous, r, name);
    }
  }

  /** Between the two lines nothing is announced: neither firing nor recovery. */
  lemma BandIsQuiet(channels: seq<Channel>, previous: Alerts, r: Rules, name: string)
    requires ValidRules(r)
    requires exists i :: 0 <= i < |channels| && About(channels[i], name) && Judged(channels[i], r)
    requires forall i :: 0 <= i < |channels| && About(channels[i], name) && Judged(channels[i], r) ==>
               r.warning <= channels[i].rate < r.warning + r.margin
    ensures RateKey(name) in Raised(channels, previous, r) <==> RateKey(name) in previous
  {
    if RateKey(name) in previous {
      RateRecoversAboveMargin(channels, previous, r, name);
    } else {
      RateFiresBelowWarning(channels, previous, r, name);
    }
  }

  // ----- sorting -----

  /** Go's `<` on strings. */
  predicate Before(s: string, t: string) {
    t != "" && (s == "" || s[0] < t[0] || (s[0] == t[0] && Before(s[1..], t[1..])))
  }

  lemma {:induction false} BeforeIsStrict(s: string, t: string, u: string)
    ensures !Before(s, s)
    ensures Before(s, t) && Before(t, u) ==> Before(s, u)
    ensures Before(s, t) || s == t || Before(t, s)
    ensures !(Before(s, t) && Before(t, s))
  {
    if s != "" && t != "" && u != "" {
      BeforeIsStrict(s[1..], t[1..], u[1..]);
      assert s == [s[0]] + s[1..] && t == [t[0]] + t[1..];
    } else if s != "" && t != "" {
      BeforeIsStrict(s[1..], t[1..], "");
      assert s == [s[0]] + s[1..] && t == [t[0]] + t[1..];
    } else if s != "" {
      BeforeIsStrict(s[1..], "", "");
    }
  }

  predicate Differ(s: string, t: string, k: nat) {
    k <= |s| && k < |t| && s[..k] == t[..k] && (k == |s| || s[k] < t[k])
  }

  lemma DifferLater(s: string, t: string, k: nat)
    requires Differ(s, t, k) && k > 0
    ensures s[0] == t[0]
  {
    assert s[..k][0] == t[..k][0];
  }

  /** The order of strings: by the first character that differs, or by where the shorter one ends. */
  lemma {:induction false} BeforeIsLexicographic(s: string, t: string)
    ensures Before(s, t) <==> exists k: nat :: Differ(s, t, k)
  {
    if s == "" || t == "" {
      if t != "" { assert Differ(s, t, 0); }
    } else if s[0] != t[0] {
      if s[0] < t[0] { assert Differ(s, t, 0); }
      forall k: nat | Differ(s, t, k) ensures k == 0 {
        if k > 0 { DifferLater(s, t, k); }
      }
    } else {
      BeforeIsLexicographic(s[1..], t[1..]);
      if Before(s, t) {
        var k: nat :| Differ(s[1..], t[1..], k);
        assert s[..k + 1] == [s[0]] + s[1..][..k] && t[..k + 1] == [t[0]] + t[1..][..k];
        assert Differ(s, t, k + 1);
      }
      forall k: nat | Differ(s, t, k) ensures Before(s[1..], t[1..]) {
        assert s[1..][..k - 1] == s[..k][1..] && t[1..][..k - 1] == t[..k][1..];
        assert Differ(s[1..], t[1..], k - 1);
      }
    }
  }

  function Rank(s: Severity): nat { if s.Critical? then 0 else 1 }

  predicate Less(a: Alert, b: Alert) {
    Rank(a.severity) < Rank(b.severity) || (Rank(a.severity) == Rank(b.severity) && Before(a.key, b.key))
  }

  /** Critical alerts come before warnings, and alerts of one severity in the order of their keys. */
  lemma CriticalComesFirst(a: Alert, b: Alert)
    ensures Less(a, b) <==>
      (a.severity == Critical && b.severity == Warning)
      || (a.severity == b.severity && exists k: nat :: Differ(a.key, b.key, k))
  {
    BeforeIsLexicographic(a.key, b.key);
  }

  lemma LessIsStrict(a: Alert, b: Alert, c: Alert)
    ensures !Less(a, a) && !(Less(a, b) && Less(b, a))
    ensures Less(a, b) && Less(b, c) ==> Less(a, c)
    ensures Less(a, b) || Less(b, a) || (a.severity == b.severity && a.key == b.key)
  {
    BeforeIsStrict(a.key, b.key, c.key);
  }

  predicate Sorted(s: seq<Alert>) { forall i, j :: 0 <= i < j < |s| ==> !Less(s[j], s[i]) }

  /** `s` lists the alerts of `m` in order. */
  predicate Lists(s: seq<Alert>, m: Alerts) {
    && Sorted(s)
    && (forall i :: 0 <= i < |s| ==> s[i].key in m && m[s[i].key] == s[i])
    && (forall k :: k in m ==> exists i :: 0 <= i < |s| && s[i].key == k)
    && (forall i, j :: 0 <= i < j < |s| ==> s[i].key != s[j].key)
  }

  /** There is one such list: the order of the map's own iteration leaves no trace. */
  lemma {:induction false} ListsIsUnique(s: seq<Alert>, t: seq<Alert>, m: Alerts)
    requires Keyed(m) && Lists(s, m) && Lists(t, m)
    ensures s == t
    decreases |s|
  {
    if s == [] {
      NothingListed(s, t, m);
    } else {
      SameFirst(s, t, m);
      TailLists(s, m);
      TailLists(t, m);
      ListsIsUnique(s[1..], t[1..], m - {s[0].key});
      SameParts(s, t);
    }
  }

  lemma NothingListed(s: seq<Alert>, t: seq<Alert>, m: Alerts)
    requires Lists(s, m) && Lists(t, m)
    ensures s == [] ==> t == []
  {
    assert t != [] ==> t[0].key in m;
  }

  lemma SameParts(s: seq<Alert>, t: seq<Alert>)
    requires s != [] && t != [] && s[0] == t[0] && s[1..] == t[1..]
    ensures s == t
  {
    assert s == [s[0]] + s[1..] && t == [t[0]] + t[1..];
  }

  lemma SameFirst(s: seq<Alert>, t: seq<Alert>, m: Alerts)
    requires Keyed(m) && Lists(s, m) && Lists(t, m) && s != []
    ensures t != [] && s[0] == t[0]
  {
    assert s[0].key in m;
    var j :| 0 <= j < |t| && t[j].key == s[0].key;
    assert t[0].key in m;
    var i :| 0 <= i < |s| && s[i].key == t[0].key;
    assert m[s[0].key] == s[0] == t[j] && m[t[0].key] == t[0] == s[i];
    FirstIsLeast(s, i);
    FirstIsLeast(t, j);
    LessIsStrict(s[0], t[0], s[0]);
  }

  lemma FirstIsLeast(s: seq<Alert>, i: nat)
    requires Sorted(s) && i < |s|
    ensures !Less(s[i], s[0])
  {
    LessIsStrict(s[0], s[0], s[0]);
  }

  lemma TailLists(s: seq<Alert>, m: Alerts)
    requires Keyed(m) && Lists(s, m) && s != []
    ensures Lists(s[1..], m - {s[0].key})
  {
    var m' := m - {s[0].key};
    forall k | k in m' ensures exists i :: 0 <= i < |s[1..]| && s[1..][i].key == k {
      var i :| 0 <= i < |s| && s[i].key == k;
      assert s[1..][i - 1].key == k;
    }
  }

  predicate SortedBetween(s: seq<Alert>, lo: int, hi: int)
    requires 0 <= lo <= hi <= |s|
  {
    forall i, j :: lo <= i < j < hi ==> !Less(s[j], s[i])
  }

  /** The insertion sort: neighbours are swapped until the new alert is in its place. */
  method SortAlerts(a: array<Alert>)
    modifies a
    ensures Sorted(a[..]) && multiset(a[..]) == multiset(old(a[..]))
  {
    if a.Length == 0 {
      return;
    }
    for i := 1 to a.Length
      invariant SortedBetween(a[..], 0, i)
      invariant multiset(a[..]) == multiset(old(a[..]))
    {
      Insert(a, i);
    }
  }

  method Insert(a: array<Alert>, i: nat)
    requires 0 < i < a.Length && SortedBetween(a[..], 0, i)
    modifies a
    ensures SortedBetween(a[..], 0, i + 1)
    ensures multiset(a[..]) == multiset(old(a[..]))
  {
    var j := i;
    while j > 0 && Less(a[j], a[j - 1])
      invariant 0 <= j <= i
      invariant SortedBut(a[..], i + 1, j)
      invariant multiset(a[..]) == multiset(old(a[..]))
    {
      SwapStep(a[..], i + 1, j);
      a[j], a[j - 1] := a[j - 1], a[j];
      j := j - 1;
    }
    Settled(a[..], i + 1, j);
  }

  /** Sorted up to `n`, if the alert at `k` is left out, and nothing behind it belongs before it. */
  predicate SortedBut(s: seq<Alert>, n: int, k: int)
    requires 0 <= k < n <= |s|
  {
    && (forall i, j :: 0 <= i < j < n && i != k && j != k ==> !Less(s[j], s[i]))
    && (forall j :: k < j < n ==> !Less(s[j], s[k]))
  }

  lemma SwapStep(s: seq<Alert>, n: int, k: int)
    requires 0 < k < n <= |s| && SortedBut(s, n, k) && Less(s[k], s[k - 1])
    ensures SortedBut(s[k := s[k - 1]][k - 1 := s[k]], n, k - 1)
  {
    LessIsStrict(s[k], s[k - 1], s[k]);
  }

  lemma Settled(s: seq<Alert>, n: int, k: int)
    requires 0 <= k < n <= |s| && SortedBut(s, n, k) && (k > 0 ==> !Less(s[k], s[k - 1]))
    ensures SortedBetween(s, 0, n)
  {
    forall i | 0 <= i < k ensures !Less(s[k], s[i]) {
      if i < k - 1 {
        assert !Less(s[k - 1], s[i]);
        NotLessIsTransitive(s[i], s[k - 1], s[k]);
      }
    }
  }

  lemma NotLessIsTransitive(a: Alert, b: Alert, c: Alert)
    requires !Less(b, a) && !Less(c, b)
    ensures !Less(c, a)
  {
    BeforeIsStrict(c.key, a.key, b.key);
    BeforeIsStrict(b.key, c.key, a.key);
    BeforeIsStrict(a.key, b.key, c.key);
  }

  lemma {:induction false} CountOnce(xs: seq<Alert>, x: Alert)
    ensures (forall i, j :: 0 <= i < j < |xs| ==> xs[i] != xs[j]) ==> multiset(xs)[x] <= 1
    ensures x !in xs ==> multiset(xs)[x] == 0
    decreases |xs|
  {
    if xs != [] {
      var n := |xs| - 1;
      assert xs == xs[..n] + [xs[n]];
      CountOnce(xs[..n], x);
      assert multiset(xs) == multiset(xs[..n]) + multiset{xs[n]};
    }
  }

  lemma CountTwice(ys: seq<Alert>, i: nat, j: nat)
    requires i < j < |ys| && ys[i] == ys[j]
    ensures multiset(ys)[ys[i]] >= 2
  {
    assert ys == ys[..j] + [ys[j]] + ys[j + 1..];
    assert ys[i] in ys[..j];
    assert multiset(ys) == multiset(ys[..j]) + multiset{ys[j]} + multiset(ys[j + 1..]);
  }

  /** Sorting a listing without repetitions gives the ordered one. */
  lemma SortedListing(xs: seq<Alert>, ys: seq<Alert>, m: Alerts)
    requires Keyed(m) && Sorted(ys) && multiset(ys) == multiset(xs)
    requires forall i, j :: 0 <= i < j < |xs| ==> xs[i] != xs[j]
    requires forall x :: x in xs <==> x.key in m && m[x.key] == x
    ensures Lists(ys, m)
  {
    forall y | y in multiset(ys) ensures y in xs { assert y in multiset(xs); }
    forall i | 0 <= i < |ys| ensures ys[i].key in m && m[ys[i].key] == ys[i] { assert ys[i] in multiset(ys); }
    forall k | k in m ensures exists i :: 0 <= i < |ys| && ys[i].key == k {
      assert m[k] in multiset(xs) && m[k] in multiset(ys);
      assert m[k] in ys;
    }
    forall i, j | 0 <= i < j < |ys| ensures ys[i].key != ys[j].key {
      CountOnce(xs, ys[i]);
      if ys[i] == ys[j] { CountTwice(ys, i, j); }
    }
  }

  /** The transitions of a map, collected in any order and sorted. */
  method Ordered(m: Alerts) returns (s: seq<Alert>)
    requires Keyed(m)
    ensures Lists(s, m)
  {
    var xs: seq<Alert> := [];
    var keys := m.Keys;
    while keys != {}
      invariant keys <= m.Keys
      invariant forall x :: x in xs <==> x.key in m && x.key !in keys && m[x.key] == x
      invariant forall i, j :: 0 <= i < j < |xs| ==> xs[i] != xs[j]
      decreases |keys|
    {
      var k :| k in keys;
      xs, keys := xs + [m[k]], keys - {k};
    }
    if xs == [] {
      return [];
    }
    var a := new Alert[|xs|](i requires 0 <= i < |xs| => xs[i]);
    assert a[..] == xs;
    SortAlerts(a);
    SortedListing(xs, a[..], m);
    s := a[..];
  }

  // ----- the engine -----

  datatype Record = Record(key: string, fired: bool)

  /** What the engine keeps, and the transitions it has recorded. */
  datatype EngineState = EngineState(rules: Rules, firing: Alerts, log: seq<Record>)

  function Records(alerts: seq<Alert>, fired: bool): seq<Record> {
    seq(|alerts|, i requires 0 <= i < |alerts| => Record(alerts[i].key, fired))
  }

  /** The firing set after a pass: what did not recover, and what has just started. */
  function NextFiring(current: Alerts, previous: Alerts): Alerts {
    (previous - NewlyRecovered(current, previous).Keys) + NewlyFiring(current, previous)
  }

  /** What has just started is reported as it is, what is over as it was but with its detail replaced, and
      what goes on stays as it was when it started. */
  lemma TransitionsAre(current: Alerts, previous: Alerts, fired: seq<Alert>, recovered: seq<Alert>)
    requires Keyed(current) && Keyed(previous)
    requires Lists(fired, NewlyFiring(current, previous)) && Lists(recovered, NewlyRecovered(current, previous))
    ensures forall a :: a in fired <==> a.key in current && a.key !in previous && current[a.key] == a
    ensures forall a :: a in recovered <==>
      a.key in previous && a.key !in current && a == previous[a.key].(detail := Recovered)
    ensures NextFiring(current, previous).Keys == current.Keys
    ensures forall k :: k in current ==> NextFiring(current, previous)[k] == if k in previous then previous[k] else current[k]
  {
    ListedAre(fired, NewlyFiring(current, previous));
    ListedAre(recovered, NewlyRecovered(current, previous));
  }

  lemma ListedAre(s: seq<Alert>, m: Alerts)
    requires Lists(s, m)
    ensures forall a :: a in s <==> a.key in m && m[a.key] == a
  {
    forall a: Alert | a.key in m && m[a.key] == a ensures a in s {
      var i :| 0 <= i < |s| && s[i].key == a.key;
      assert m[s[i].key] == s[i];
    }
  }

  datatype Step = Pass(channels: seq<Channel>) | SetThresholds(rules: Rules)

  /** A pass records the newly firing alerts and then the recovered ones, each list in order. */
  ghost predicate Passed(s: EngineState, channels: seq<Channel>, t: EngineState, fired: seq<Alert>, recovered: seq<Alert>) {
    var current := Raised(channels, s.firing, s.rules);
    && Lists(fired, NewlyFiring(current, s.firing)) && Lists(recovered, NewlyRecovered(current, s.firing))
    && t == EngineState(s.rules, NextFiring(current, s.firing), s.log + Records(fired, true) + Records(recovered, false))
  }

  ghost predicate Next(s: EngineState, step: Step, t: EngineState) {
    match step
    case Pass(channels) => exists fired, recovered :: Passed(s, channels, t, fired, recovered)
    case SetThresholds(rules) => t == if ValidRules(rules) then s.(rules := rules) else s
  }

  /** The last record of a key says that it fires. */
  predicate Open(log: seq<Record>, key: string) {
    log != [] && if log[|log| - 1].key == key then log[|log| - 1].fired else Open(log[..|log| - 1], key)
  }

  /** The records of a key alternate, and the first one says that it fires. */
  predicate Alternates(log: seq<Record>, key: string) {
    log == [] ||
    (Alternates(log[..|log| - 1], key)
     && (log[|log| - 1].key == key ==> log[|log| - 1].fired == !Open(log[..|log| - 1], key)))
  }

  ghost predicate Inv(s: EngineState) {
    && Keyed(s.firing)
    && (forall k :: Alternates(s.log, k))
    && (forall k :: Open(s.log, k) <==> k in s.firing)
  }

  predicate Names(alerts: seq<Alert>, key: string) { exists i :: 0 <= i < |alerts| && alerts[i].key == key }

  lemma NamesMore(alerts: seq<Alert>, a: Alert, key: string)
    ensures Names(alerts + [a], key) <==> Names(alerts, key) || a.key == key
  {
    var all := alerts + [a];
    assert all[|alerts|] == a && forall i :: 0 <= i < |alerts| ==> all[i] == alerts[i];
  }

  predicate Distinct(alerts: seq<Alert>) { forall i, j :: 0 <= i < j < |alerts| ==> alerts[i].key != alerts[j].key }

  lemma DistinctBefore(alerts: seq<Alert>, a: Alert)
    requires Distinct(alerts + [a])
    ensures Distinct(alerts) && !Names(alerts, a.key)
  {
    var all := alerts + [a];
    assert all[|alerts|] == a && forall i :: 0 <= i < |alerts| ==> all[i] == alerts[i];
  }

  lemma OneMore(log: seq<Record>, r: Record, key: string)
    ensures Open(log + [r], key) == if r.key == key then r.fired else Open(log, key)
    ensures Alternates(log + [r], key) <==> Alternates(log, key) && (r.key == key ==> r.fired == !Open(log, key))
  {
    assert (log + [r])[..|log|] == log;
  }

  lemma RecordsMore(log: seq<Record>, alerts: seq<Alert>, a: Alert, fired: bool)
    ensures log + Records(alerts + [a], fired) == log + Records(alerts, fired) + [Record(a.key, fired)]
  {
    assert Records(alerts + [a], fired) == Records(alerts, fired) + [Record(a.key, fired)];
  }

  /** Records of different keys, none of which is in the state that they announce. */
  lemma {:induction false} Announce(log: seq<Record>, alerts: seq<Alert>, fired: bool, key: string)
    requires Distinct(alerts) && Alternates(log, key)
    requires Names(alerts, key) ==> Open(log, key) == !fired
    ensures Alternates(log + Records(alerts, fired), key)
    ensures Open(log + Records(alerts, fired), key) == if Names(alerts, key) then fired else Open(log, key)
    decreases |alerts|
  {
    if alerts == [] {
      assert log + Records(alerts, fired) == log;
    } else {
      var n := |alerts| - 1;
      var older, a := alerts[..n], alerts[n];
      assert alerts == older + [a];
      DistinctBefore(older, a);
      NamesMore(older, a, key);
      Announce(log, older, fired, key);
      OneMore(log + Records(older, fired), Record(a.key, fired), key);
      RecordsMore(log, older, a, fired);
    }
  }

  lemma ListsKeys(s: seq<Alert>, m: Alerts, key: string)
    requires Lists(s, m)
    ensures Distinct(s) && (key in m <==> Names(s, key))
  {
  }

  /** The firing set is what the last snapshot raised. */
  lemma FiringIsRaised(current: Alerts, previous: Alerts)
    ensures NextFiring(current, previous).Keys == current.Keys
  {
  }

  lemma PassKeepsInv(s: EngineState, channels: seq<Channel>, t: EngineState, fired: seq<Alert>, recovered: seq<Alert>)
    requires Inv(s) && Passed(s, channels, t, fired, recovered)
    ensures Inv(t) && t.firing.Keys == Raised(channels, s.firing, s.rules).Keys
  {
    var current := Raised(channels, s.firing, s.rules);
    RaisedIsKeyed(channels, s.firing, s.rules);
    FiringIsRaised(current, s.firing);
    forall k ensures Alternates(t.log, k) && (Open(t.log, k) <==> k in t.firing) {
      ListsKeys(fired, NewlyFiring(current, s.firing), k);
      ListsKeys(recovered, NewlyRecovered(current, s.firing), k);
      Announce(s.log, fired, true, k);
      Announce(s.log + Records(fired, true), recovered, false, k);
    }
  }

  /** A run of the engine. */
  ghost predicate Run(states: seq<EngineState>, steps: seq<Step>) {
    && |states| == |steps| + 1 && states[0].firing == map[] && states[0].log == []
    && forall i :: 0 <= i < |steps| ==> Next(states[i], steps[i], states[i + 1])
  }

  lemma {:induction false} RunKeepsInv(states: seq<EngineState>, steps: seq<Step>, n: nat)
    requires Run(states, steps) && n < |states|
    ensures Inv(states[n])
  {
    if n > 0 {
      RunKeepsInv(states, steps, n - 1);
      assert Next(states[n - 1], steps[n - 1], states[n]);
      StepKeepsInv(states[n - 1], steps[n - 1], states[n]);
    }
  }

  lemma StepKeepsInv(s: EngineState, step: Step, t: EngineState)
    requires Inv(s) && Next(s, step, t)
    ensures Inv(t)
  {
    if step.Pass? {
      var fired, recovered :| Passed(s, step.channels, t, fired, recovered);
      PassKeepsInv(s, step.channels, t, fired, recovered);
    }
  }

  /** In every run each key's transitions alternate, beginning with one that fires; the firing set is
      the keys whose last transition fired, and after a pass it is what that snapshot raised. */
  lemma TransitionsAlternate(states: seq<EngineState>, steps: seq<Step>, n: nat, key: string)
    requires Run(states, steps) && n < |states|
    ensures Alternates(states[n].log, key)
    ensures key in states[n].firing <==> Open(states[n].log, key)
    ensures n > 0 && steps[n - 1].Pass? ==>
              states[n].firing.Keys == Raised(steps[n - 1].channels, states[n - 1].firing, states[n - 1].rules).Keys
    ensures n > 0 && steps[n - 1].SetThresholds? ==>
              states[n].firing == states[n - 1].firing && states[n].log == states[n - 1].log
  {
    RunKeepsInv(states, steps, n);
    KeyAlternates(states[n], key);
    if n > 0 { LastStepIsFaithful(states, steps, n); }
  }

  lemma KeyAlternates(s: EngineState, key: string)
    requires Inv(s)
    ensures Alternates(s.log, key) && (key in s.firing <==> Open(s.log, key))
  {
  }

  lemma LastStepIsFaithful(states: seq<EngineState>, steps: seq<Step>, n: nat)
    requires Run(states, steps) && 0 < n < |states|
    ensures steps[n - 1].Pass? ==>
              states[n].firing.Keys == Raised(steps[n - 1].channels, states[n - 1].firing, states[n - 1].rules).Keys
    ensures steps[n - 1].SetThresholds? ==>
              states[n].firing == states[n - 1].firing && states[n].log == states[n - 1].log
  {
    assert Next(states[n - 1], steps[n - 1], states[n]);
    RunKeepsInv(states, steps, n - 1);
    StepIsFaithful(states[n - 1], steps[n - 1], states[n]);
  }

  /** A pass leaves firing what its snapshot raised, and a new policy changes neither set nor records. */
  lemma StepIsFaithful(s: EngineState, step: Step, t: EngineState)
    requires Inv(s) && Next(s, step, t)
    ensures step.Pass? ==> t.firing.Keys == Raised(step.channels, s.firing, s.rules).Keys
    ensures step.SetThresholds? ==> t.firing == s.firing && t.log == s.log
  {
    if step.Pass? {
      var fired, recovered :| Passed(s, step.channels, t, fired, recovered);
      PassKeepsInv(s, step.channels, t, fired, recovered);
    }
  }

  /** What a pass reports and records does not depend on the order in which maps are walked. */
  lemma PassIsDeterministic(s: EngineState, channels: seq<Channel>, t: EngineState, t': EngineState,
                            f: seq<Alert>, f': seq<Alert>, r: seq<Alert>, r': seq<Alert>)
    requires Keyed(s.firing) && Passed(s, channels, t, f, r) && Passed(s, channels, t', f', r')
    ensures t == t' && f == f' && r == r'
  {
    var current := Raised(channels, s.firing, s.rules);
    RaisedIsKeyed(channels, s.firing, s.rules);
    ListsIsUnique(f, f', NewlyFiring(current, s.firing));
    ListsIsUnique(r, r', NewlyRecovered(current, s.firing));
  }

  method Drop(m: Alerts, alerts: seq<Alert>, ghost listed: Alerts) returns (next: Alerts)
    requires Lists(alerts, listed)
    ensures next == m - listed.Keys
  {
    next := m;
    for i := 0 to |alerts|
      invariant next == m - FromList(alerts[..i]).Keys
    {
      FromListStep(alerts, i);
      MinusMore(m, FromList(alerts[..i]), alerts[i]);
      next := next - {alerts[i].key};
    }
    assert alerts[..|alerts|] == alerts;
    ListIsMap(alerts, listed);
  }

  method Add(m: Alerts, alerts: seq<Alert>, ghost listed: Alerts) returns (next: Alerts)
    requires Lists(alerts, listed)
    ensures next == m + listed
  {
    next := m;
    for i := 0 to |alerts|
      invariant next == m + FromList(alerts[..i])
    {
      FromListStep(alerts, i);
      PlusMore(m, FromList(alerts[..i]), alerts[i]);
      next := next[alerts[i].key := alerts[i]];
    }
    assert alerts[..|alerts|] == alerts;
    ListIsMap(alerts, listed);
  }

  class Engine {
    var rules: Rules
    var firing: Alerts
    var log: seq<Record>

    ghost function Abs(): EngineState
      reads this
    {
      EngineState(rules, firing, log)
    }

    constructor (rules: Rules)
      ensures Abs() == EngineState(rules, map[], [])
    {
      this.rules, firing, log := rules, map[], [];
    }

    /** The loop over a snapshot's channels. */
    method Collect(channels: seq<Channel>) returns (current: Alerts)
      ensures current == Raised(channels, firing, rules)
    {
      current := map[];
      for i := 0 to |channels|
        invariant current == Raised(channels[..i], firing, rules)
      {
        assert channels[..i + 1][..i] == channels[..i];
        current := current + RaisedBy(channels[i], firing, rules);
      }
      assert channels[..|channels|] == channels;
    }

    method Evaluate(channels: seq<Channel>) returns (fired: seq<Alert>, recovered: seq<Alert>)
      requires Keyed(firing)
      modifies this
      ensures Passed(old(Abs()), channels, Abs(), fired, recovered)
      ensures
        var current := Raised(channels, old(firing), old(rules));
        && (forall a :: a in fired <==> a.key in current && a.key !in old(firing) && current[a.key] == a)
        && (forall a :: a in recovered <==>
              a.key in old(firing) && a.key !in current && a == old(firing)[a.key].(detail := Recovered))
        && firing.Keys == current.Keys
        && (forall k :: k in firing ==> firing[k] == if k in old(firing) then old(firing)[k] else current[k])
      ensures Keyed(firing)
    {
      RaisedIsKeyed(channels, firing, rules);
      var current := Collect(channels);
      fired := Ordered(NewlyFiring(current, firing));
      recovered := Ordered(NewlyRecovered(current, firing));
      var kept := Drop(firing, recovered, NewlyRecovered(current, firing));
      var next := Add(kept, fired, NewlyFiring(current, firing));
      TransitionsAre(current, firing, fired, recovered);
      firing := next;
      log := log + Records(fired, true) + Records(recovered, false);
    }

    /** Refuses an invalid policy; the firing set is left alone either way. */
    method SetThresholds(r: Rules) returns (ok: bool)
      modifies this
      ensures ok <==>
        && r.minRequests >= 0 && r.minFailures >= 0 && 0.0 < r.critical < r.warning <= 1.0
        && 0.0 <= r.margin <= 0.5 && r.warning + r.margin <= 1.0
      ensures Next(old(Abs()), Step.SetThresholds(r), Abs())
    {
      if r.minRequests < 0 || r.minFailures < 0 {
        return false;
      }
      if r.warning <= 0.0 || r.warning > 1.0 || r.critical <= 0.0 || r.critical >= r.warning {
        return false;
      }
      if r.warning + r.margin > 1.0 || r.margin < 0.0 || r.margin > 0.5 {
        return false;
      }
      rules := r;
      return true;
    }
  }

  function FromList(s: seq<Alert>): Alerts {
    if s == [] then map[] else FromList(s[..|s| - 1])[s[|s| - 1].key := s[|s| - 1]]
  }

  lemma FromListStep(s: seq<Alert>, i: nat)
    requires i < |s|
    ensures FromList(s[..i + 1]) == FromList(s[..i])[s[i].key := s[i]]
  {
    assert s[..i + 1][..i] == s[..i];
  }

  lemma MinusMore(m: Alerts, d: Alerts, a: Alert)
    ensures m - d[a.key := a].Keys == m - d.Keys - {a.key}
  {
  }

  lemma PlusMore(m: Alerts, d: Alerts, a: Alert)
    ensures m + d[a.key := a] == (m + d)[a.key := a]
  {
  }

  lemma {:induction false} FromListKeys(s: seq<Alert>)
    requires forall i, j :: 0 <= i < j < |s| ==> s[i].key != s[j].key
    ensures forall k :: k in FromList(s) <==> exists i :: 0 <= i < |s| && s[i].key == k
    ensures forall i :: 0 <= i < |s| ==> s[i].key in FromList(s) && FromList(s)[s[i].key] == s[i]
  {
    if s != [] {
      var n := |s| - 1;
      assert forall i :: 0 <= i < n ==> s[..n][i] == s[i];
      FromListKeys(s[..n]);
    }
  }

  lemma ListIsMap(s: seq<Alert>, m: Alerts)
    requires Lists(s, m)
    ensures FromList(s) == m
  {
    FromListKeys(s);
  }
}
