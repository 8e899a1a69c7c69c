/** internal/cline/auth.go: how long an inference cap lasts is read from the upstream's prose and
    printed for the client in the same spelling.  A duration is a number of nanoseconds. */
module CapWait {
  import opened Text

  const SECOND := 1_000_000_000
  const MINUTE := 60 * SECOND
  const HOUR := 60 * MINUTE
  const DAY := 24 * HOUR

  // ----- parsing -----

  datatype Reading = Reading(number: int, total: int, valid: bool)

  function Unit(c: char): Option<int> {
    if c == 'd' || c == 'D' then Some(DAY)
    else if c == 'h' || c == 'H' then Some(HOUR)
    else if c == 'm' || c == 'M' then Some(MINUTE)
    else if c == 's' || c == 'S' then Some(SECOND)
    else None
  }

  /** One turn of the loop, in int64 arithmetic. */
  function Read(r: Reading, c: char): Reading {
    if IsDigit(c) then r.(number := Wrap(r.number * 10 + Value(c)))
    else if Unit(c).Some? then Reading(0, Wrap(r.total + Wrap(r.number * Unit(c).value)), true)
    else r.(number := 0)
  }

  function ReadAll(s: string): Reading {
    if s == "" then Reading(0, 0, false) else Read(ReadAll(s[..|s| - 1]), s[|s| - 1])
  }

  function Parsed(value: string): int {
    var r := ReadAll(Trim(value));
    if r.valid then r.total else 0
  }

  method Turn(c: char, number: int, total: int, valid: bool) returns (number': int, total': int, valid': bool)
    ensures Reading(number', total', valid') == Read(Reading(number, total, valid), c)
  {
    if '0' <= c <= '9' {
      return Wrap(number * 10 + (c as int - '0' as int)), total, valid;
    }
    if c == 'd' || c == 'D' {
      return 0, Wrap(total + Wrap(number * DAY)), true;
    } else if c == 'h' || c == 'H' {
      return 0, Wrap(total + Wrap(number * HOUR)), true;
    } else if c == 'm' || c == 'M' {
      return 0, Wrap(total + Wrap(number * MINUTE)), true;
    } else if c == 's' || c == 'S' {
      return 0, Wrap(total + Wrap(number * SECOND)), true;
    }
    return 0, total, valid;
  }

  method ParseHumanDuration(text: string) returns (wait: int)
    ensures wait == Parsed(text)
  {
    var value := Trim(text);
    if value == "" {
      return 0;
    }
    var total, number, valid := 0, 0, false;
    for i := 0 to |value|
      invariant Reading(number, total, valid) == ReadAll(value[..i])
    {
      assert value[..i + 1][..i] == value[..i];
      var c := value[i];
      number, total, valid := Turn(c, number, total, valid);
    }
    assert value[..|value|] == value;
    return if valid then total else 0;
  }

  // ----- printing -----

  /** `Duration.Round(time.Second)`: half away from zero, and the largest duration on overflow. */
  function Rounded(wait: int): int
    requires wait >= 0
  {
    var r := wait % SECOND;
    if r + r < SECOND then wait - r else if wait + SECOND - r > MAX_INT64 then MAX_INT64 else wait + SECOND - r
  }

  function Spelled(hours: nat, minutes: nat, seconds: nat): string {
    if hours > 0 && minutes > 0 then PrintInt(hours) + (['h', ' '] + (PrintInt(minutes) + ['m']))
    else if hours > 0 then PrintInt(hours) + ['h']
    else if minutes > 0 then PrintInt(minutes) + ['m']
    else PrintInt(seconds) + ['s']
  }

  /** `formatCapWait` */
  function Format(wait: int): string {
    if wait <= 0 then "a moment"
    else Spelled(Rounded(wait) / HOUR, Rounded(wait) % HOUR / MINUTE, Rounded(wait) / SECOND)
  }

  // ----- round trip -----

  /** What is left of a wait when it is printed: seconds, and only whole minutes from a minute on. */
  function Kept(wait: int): int
    requires wait > 0
  {
    var seconds := (wait + SECOND / 2) / SECOND;
    if seconds >= 60 then seconds / 60 * MINUTE else seconds * SECOND
  }

  lemma {:induction false} ReadDigits(a: string, d: string)
    requires Digits(d) && ReadAll(a).number == 0 && NatOf(d) <= MAX_INT64
    ensures ReadAll(a + d) == ReadAll(a).(number := NatOf(d))
    decreases |d|
  {
    if d == "" {
      assert a + d == a;
    } else {
      var d' := d[..|d| - 1];
      assert (a + d)[..|a + d| - 1] == a + d' && (a + d)[|a + d| - 1] == d[|d| - 1];
      ReadDigits(a, d');
    }
  }

  lemma WrapKeeps(n: int)
    requires 0 <= n <= MAX_INT64
    ensures Wrap(n) == n
  {
  }

  lemma ReadUnit(r: Reading, c: char, part: int)
    requires Unit(c).Some? && part == r.number * Unit(c).value
    requires 0 <= part && 0 <= r.total && r.total + part <= MAX_INT64
    ensures Read(r, c) == Reading(0, r.total + part, true)
  {
    WrapKeeps(part);
    WrapKeeps(r.total + part);
  }

  lemma ReadLast(s: string, c: char, r: Reading)
    requires ReadAll(s) == r
    ensures ReadAll(s + [c]) == Read(r, c)
  {
    assert (s + [c])[..|s + [c]| - 1] == s;
  }

  lemma ReadNumber(a: string, n: nat)
    requires ReadAll(a).number == 0 && n <= MAX_INT64
    ensures ReadAll(a + PrintInt(n)) == ReadAll(a).(number := n)
  {
    NatRoundTrip(n);
    ReadDigits(a, PrintNat(n));
  }

  /** A number and its unit are added to the total. */
  lemma ReadPart(a: string, n: nat, c: char, part: int, r: Reading)
    requires r.number == 0 && Unit(c).Some? && part == n * Unit(c).value && n <= MAX_INT64
    requires 0 <= part && 0 <= r.total && r.total + part <= MAX_INT64
    requires ReadAll(a) == r
    ensures ReadAll(a + PrintInt(n) + [c]) == Reading(0, r.total + part, true)
  {
    ReadNumber(a, n);
    ReadLast(a + PrintInt(n), c, r.(number := n));
    ReadUnit(r.(number := n), c, part);
  }

  /** One number with its unit. */
  lemma ReadOne(n: nat, c: char, part: int)
    requires Unit(c).Some? && !IsSpace(c) && part == n * Unit(c).value && n <= MAX_INT64 && 0 <= part <= MAX_INT64
    ensures Parsed(PrintInt(n) + [c]) == part
    ensures Trim(PrintInt(n) + [c]) == PrintInt(n) + [c]
  {
    assert "" + PrintInt(n) == PrintInt(n) && "" + [c] == [c];
    ReadPart("", n, c, part, Reading(0, 0, false));
    PartIsTrimmed(n, "", c);
  }

  /** What each letter stands for, in nanoseconds. */
  lemma UnitsAre(n: nat, c: char)
    requires n * 86_400_000_000_000 <= MAX_INT64
    ensures c == 'd' || c == 'D' ==> Parsed(PrintInt(n) + [c]) == n * 86_400_000_000_000
    ensures c == 'h' || c == 'H' ==> Parsed(PrintInt(n) + [c]) == n * 3_600_000_000_000
    ensures c == 'm' || c == 'M' ==> Parsed(PrintInt(n) + [c]) == n * 60_000_000_000
    ensures c == 's' || c == 'S' ==> Parsed(PrintInt(n) + [c]) == n * 1_000_000_000
  {
    if Unit(c).Some? { ReadOne(n, c, n * Unit(c).value); }
  }

  /** A number counts only directly before its unit. */
  lemma GapIsNotBridged(s: string, gap: char)
    requires !IsDigit(gap) && gap !in {'d', 'D', 'h', 'H', 'm', 'M', 's', 'S'}
    ensures ReadAll(s + [gap]) == ReadAll(s).(number := 0)
  {
    ReadLast(s, gap, ReadAll(s));
  }

  lemma PartIsTrimmed(n: nat, rest: string, c: char)
    requires !IsSpace(c)
    ensures Trim(PrintInt(n) + (rest + [c])) == PrintInt(n) + (rest + [c])
  {
    var s := PrintInt(n) + (rest + [c]);
    assert IsDigit(PrintNat(n)[0]) && s[0] == PrintNat(n)[0] && s[|s| - 1] == c;
    TrimIsTrimmed(s);
  }

  lemma DivideHours(x: int, q: int, r: int)
    requires x == q * HOUR + r && 0 <= r < HOUR
    ensures x / HOUR == q && x % HOUR == r
  {
  }

  lemma DivideMinutes(x: int, q: int, r: int)
    requires x == q * MINUTE + r && 0 <= r < MINUTE
    ensures x / MINUTE == q
  {
  }

  lemma WholeSeconds(s: nat)
    ensures s * SECOND / HOUR == s / 3600 && s * SECOND % HOUR / MINUTE == s % 3600 / 60 && s * SECOND / SECOND == s
  {
    DivideHours(s * SECOND, s / 3600, s % 3600 * SECOND);
    DivideMinutes(s % 3600 * SECOND, s % 3600 / 60, s % 60 * SECOND);
  }

  lemma RoundedIs(wait: int)
    requires 0 < wait <= MAX_INT64
    ensures var seconds := (wait + SECOND / 2) / SECOND;
      if Rounded(wait) == MAX_INT64 then seconds == 9_223_372_037 else Rounded(wait) == seconds * SECOND <= MAX_INT64
  {
  }

  lemma MinutesOfSeconds(s: nat)
    ensures s / 3600 * 60 + s % 3600 / 60 == s / 60 && (s >= 60 <==> s / 3600 > 0 || s % 3600 / 60 > 0)
    ensures s / 60 * MINUTE <= s * SECOND && s % 3600 / 60 < 60
  {
  }

  lemma Divided(wait: int)
    requires 0 < wait <= MAX_INT64
    ensures var (w, hours, minutes) := (Rounded(wait), Rounded(wait) / HOUR, Rounded(wait) % HOUR / MINUTE);
            && 0 <= w <= MAX_INT64 && 0 <= hours && 0 <= minutes < 60
            && hours * HOUR + minutes * MINUTE <= w && w / SECOND * SECOND <= w
            && Kept(wait) == if hours > 0 || minutes > 0 then hours * HOUR + minutes * MINUTE else w / SECOND * SECOND
  {
    RoundedIs(wait);
    if Rounded(wait) != MAX_INT64 {
      WholeSeconds((wait + SECOND / 2) / SECOND);
      MinutesOfSeconds((wait + SECOND / 2) / SECOND);
    }
  }

  lemma ReadBoth(hours: nat, minutes: nat)
    requires hours * HOUR + minutes * MINUTE <= MAX_INT64
    ensures var s := PrintInt(hours) + (['h', ' '] + (PrintInt(minutes) + ['m']));
            Trim(s) == s && Parsed(s) == hours * HOUR + minutes * MINUTE
  {
    PartIsTrimmed(hours, ['h', ' '] + PrintInt(minutes), 'm');
    JoinBoth(PrintInt(hours), PrintInt(minutes));
    ReadTwo(hours, hours * HOUR, minutes, minutes * MINUTE);
  }

  lemma ReadHours(n: nat, part: int)
    requires part == n * HOUR && part <= MAX_INT64
    ensures ReadAll(PrintInt(n) + ['h']) == Reading(0, part, true)
  {
    assert "" + PrintInt(n) == PrintInt(n);
    ReadPart("", n, 'h', part, Reading(0, 0, false));
  }

  lemma ReadMinutes(a: string, n: nat, part: int, total: int)
    requires part == n * MINUTE && 0 <= total && total + part <= MAX_INT64
    requires ReadAll(a) == Reading(0, total, true)
    ensures ReadAll(a + PrintInt(n) + ['m']) == Reading(0, total + part, true)
  {
    ReadPart(a, n, 'm', part, Reading(0, total, true));
  }

  lemma ReadTwo(hours: nat, h: int, minutes: nat, m: int)
    requires h == hours * HOUR && m == minutes * MINUTE && h + m <= MAX_INT64
    ensures ReadAll(PrintInt(hours) + ['h'] + [' '] + PrintInt(minutes) + ['m']) == Reading(0, h + m, true)
  {
    var first := PrintInt(hours) + ['h'];
    ReadHours(hours, h);
    ReadLast(first, ' ', Reading(0, h, true));
    ReadSpace(Reading(0, h, true));
    ReadMinutes(first + [' '], minutes, m, h);
  }

  lemma ReadSpace(r: Reading)
    ensures Read(r, ' ') == r.(number := 0)
  {
  }

  lemma JoinBoth(h: string, m: string)
    ensures h + (['h', ' '] + (m + ['m'])) == h + ['h'] + [' '] + m + ['m'] == h + ((['h', ' '] + m) + ['m'])
  {
  }

  lemma ReadSpelled(hours: nat, minutes: nat, seconds: nat)
    requires hours * HOUR + minutes * MINUTE <= MAX_INT64 && seconds * SECOND <= MAX_INT64
    ensures var s := Spelled(hours, minutes, seconds);
            && Trim(s) == s
            && Parsed(s) == if hours > 0 || minutes > 0 then hours * HOUR + minutes * MINUTE else seconds * SECOND
  {
    if hours > 0 && minutes > 0 {
      ReadBoth(hours, minutes);
    } else if hours > 0 {
      ReadOne(hours, 'h', hours * HOUR);
    } else if minutes > 0 {
      ReadOne(minutes, 'm', minutes * MINUTE);
    } else {
      ReadOne(seconds, 's', seconds * SECOND);
    }
  }

  /** Reading a printed wait gives it back, rounded to seconds and then cut to minutes. */
  lemma PrintedWaitIsRead(wait: int)
    requires 0 < wait <= MAX_INT64
    ensures Parsed(Format(wait)) == Kept(wait) && Trim(Format(wait)) == Format(wait)
  {
    Divided(wait);
    var w := Rounded(wait);
    ReadSpelled(w / HOUR, w % HOUR / MINUTE, w / SECOND);
  }

  // ----- in a message -----

  const PHRASE := "Try again in"

  predicate Stop(c: char) { c == '"' || c == '\n' || c == '\r' || c == '}' }

  function UpToStop(s: string): string { if s == "" || Stop(s[0]) then "" else [s[0]] + UpToStop(s[1..]) }

  /** `ParseInferenceCapDuration` */
  function ParsedFrom(body: string): int {
    match Index(body, PHRASE)
    case None => 0
    case Some(i) => Parsed(Trim(UpToStop(body[i + |PHRASE|..])))
  }

  lemma {:induction false} StopsThere(a: string, rest: string)
    requires (forall i :: 0 <= i < |a| ==> !Stop(a[i])) && (rest == "" || Stop(rest[0]))
    ensures UpToStop(a + rest) == a
  {
    if a == "" {
      assert a + rest == rest;
    } else {
      assert (a + rest)[1..] == a[1..] + rest;
      StopsThere(a[1..], rest);
    }
  }

  lemma {:induction false} NatHasNoStop(n: nat)
    ensures forall i :: 0 <= i < |PrintNat(n)| ==> !Stop(PrintNat(n)[i])
  {
    assert Digits(PrintNat(n));
  }

  lemma SpelledHasNoStop(hours: nat, minutes: nat, seconds: nat)
    ensures forall i :: 0 <= i < |Spelled(hours, minutes, seconds)| ==> !Stop(Spelled(hours, minutes, seconds)[i])
  {
    NatHasNoStop(hours);
    NatHasNoStop(minutes);
    NatHasNoStop(seconds);
  }

  lemma SpaceIsTrimmed(s: string)
    ensures Trim([' '] + s) == Trim(s)
  {
    assert ([' '] + s)[1..] == s;
  }

  lemma FoundIsRead(before: string, phrase: string, said: string, rest: string)
    requires (forall i :: 0 <= i < |said| ==> !Stop(said[i])) && (rest == "" || Stop(rest[0]))
    ensures var body := before + (phrase + (said + rest)); UpToStop(body[|before| + |phrase|..]) == said
  {
    var body := before + (phrase + (said + rest));
    assert body[|before| + |phrase|..] == said + rest;
    StopsThere(said, rest);
  }

  lemma TextIsRead(before: string, text: string, rest: string)
    requires (forall i :: 0 <= i < |[' '] + text| ==> !Stop(([' '] + text)[i])) && (rest == "" || Stop(rest[0]))
    requires Trim(text) == text && Index(before + (PHRASE + ([' '] + text + rest)), PHRASE) == Some(|before|)
    ensures ParsedFrom(before + (PHRASE + ([' '] + text + rest))) == Parsed(text)
  {
    FoundIsRead(before, PHRASE, [' '] + text, rest);
    SpaceIsTrimmed(text);
  }

  /** A message that carries a printed wait behind the phrase is read as that wait, whatever stands
      before the phrase and behind the wait. */
  lemma MessageIsRead(before: string, wait: int, rest: string)
    requires 0 < wait <= MAX_INT64 && (rest == "" || Stop(rest[0]))
    requires Index(before + (PHRASE + ([' '] + Format(wait) + rest)), PHRASE) == Some(|before|)
    ensures ParsedFrom(before + (PHRASE + ([' '] + Format(wait) + rest))) == Kept(wait)
  {
    WaitHasNoStop(wait);
    PrintedWaitIsRead(wait);
    TextIsRead(before, Format(wait), rest);
  }

  lemma WaitHasNoStop(wait: int)
    requires wait > 0
    ensures forall i :: 0 <= i < |[' '] + Format(wait)| ==> !Stop(([' '] + Format(wait))[i])
  {
    var w := Rounded(wait);
    SpelledHasNoStop(w / HOUR, w % HOUR / MINUTE, w / SECOND);
  }
}
