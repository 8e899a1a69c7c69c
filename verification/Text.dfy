/** The parts of Go's `strings` and `strconv` packages that the other modules use.
    A Go string is modelled as a `seq<char>`, one `char` per byte. */
module Text {

  datatype Option<+T> = None | Some(value: T)

  // ----- searching -----

  /** The first place where `t` occurs in `s` (`strings.Index`, `bytes.Index`). */
  function Index(s: string, t: string): (i: Option<nat>)
    ensures i.Some? ==> i.value + |t| <= |s| && t <= s[i.value..]
  {
    if t <= s then Some(0)
    else if s == "" then None
    else
      match Index(s[1..], t)
      case None => None
      case Some(k) => assert s[1..][k..] == s[k + 1..]; Some(k + 1)
  }

  predicate Contains(s: string, t: string) { Index(s, t).Some? }

  lemma {:induction false} IndexIsFirst(s: string, t: string, k: nat)
    requires k <= |s| && t <= s[k..]
    ensures Index(s, t).Some? && Index(s, t).value <= k
  {
    if k > 0 && !(t <= s) {
      assert s[1..][k - 1..] == s[k..];
      IndexIsFirst(s[1..], t, k - 1);
    }
  }

  /** The text around the first `c` (`strings.Cut` at one byte). */
  function CutAt(s: string, c: char): (r: Option<(string, string)>)
    ensures r.Some? ==> s == r.value.0 + ([c] + r.value.1)
  {
    if s == "" then None
    else if s[0] == c then Some(("", s[1..]))
    else
      match CutAt(s[1..], c)
      case None => None
      case Some((before, after)) => Some(([s[0]] + before, after))
  }

  lemma {:induction false} CutAtFirst(a: string, c: char, rest: string)
    requires c !in a
    ensures CutAt(a + ([c] + rest), c) == Some((a, rest))
  {
    var s := a + ([c] + rest);
    if a == "" {
      assert s == [c] + rest;
    } else {
      assert s[1..] == a[1..] + ([c] + rest) && s[0] == a[0];
      CutAtFirst(a[1..], c, rest);
      assert a == [a[0]] + a[1..];
    }
  }

  function Suffix(s: string, n: nat): string
    requires n <= |s|
  {
    s[|s| - n..]
  }

  lemma Assoc<T>(a: seq<T>, b: seq<T>, c: seq<T>)
    ensures a + b + c == a + (b + c)
  {
  }

  /** A match in `s + p` that is not already one in `s` runs across the border. */
  lemma PrefixAcross(s: string, p: string, t: string)
    requires t <= s + p
    ensures t <= s || s < t
  {
    if |t| <= |s| {
      assert (s + p)[..|t|] == s[..|t|];
    } else {
      assert (s + p)[..|s|] == s;
    }
  }

  // ----- case and white space -----

  function Lower(c: char): char { if 'A' <= c <= 'Z' then (c as int + 32) as char else c }

  function ToLower(s: string): (r: string)
    ensures |r| == |s|
  {
    seq(|s|, i requires 0 <= i < |s| => Lower(s[i]))
  }

  predicate IsSpace(c: char) { c == ' ' || ('\t' <= c <= '\r') }

  function TrimLeft(s: string): string { if s != "" && IsSpace(s[0]) then TrimLeft(s[1..]) else s }

  function TrimRight(s: string): string { if s != "" && IsSpace(s[|s| - 1]) then TrimRight(s[..|s| - 1]) else s }

  /** `strings.TrimSpace` on ASCII white space. */
  function Trim(s: string): string { TrimRight(TrimLeft(s)) }

  predicate Trimmed(s: string) { s == "" || (!IsSpace(s[0]) && !IsSpace(s[|s| - 1])) }

  lemma {:induction false} TrimLeftStarts(s: string)
    ensures TrimLeft(s) == "" || !IsSpace(TrimLeft(s)[0])
    ensures |TrimLeft(s)| <= |s| && (|TrimLeft(s)| == |s| ==> TrimLeft(s) == s)
  {
    if s != "" && IsSpace(s[0]) { TrimLeftStarts(s[1..]); }
  }

  lemma {:induction false} TrimRightEnds(s: string)
    ensures TrimRight(s) <= s
    ensures TrimRight(s) == "" || !IsSpace(TrimRight(s)[|TrimRight(s)| - 1])
  {
    if s != "" && IsSpace(s[|s| - 1]) { TrimRightEnds(s[..|s| - 1]); }
  }

  lemma TrimIsTrimmed(s: string)
    ensures Trimmed(Trim(s)) && (Trim(s) == s <==> Trimmed(s))
  {
    TrimLeftStarts(s);
    TrimRightEnds(TrimLeft(s));
  }

  // ----- decimal numbers -----

  predicate IsDigit(c: char) { '0' <= c <= '9' }

  predicate Digits(s: string) { forall i :: 0 <= i < |s| ==> IsDigit(s[i]) }

  function Digit(d: nat): (c: char)
    requires d < 10
    ensures IsDigit(c) && Value(c) == d
  {
    ('0' as int + d) as char
  }

  function Value(c: char): nat
    requires IsDigit(c)
  {
    c as int - '0' as int
  }

  function PrintNat(n: nat): (s: string)
    ensures |s| >= 1 && Digits(s)
  {
    if n < 10 then [Digit(n)] else PrintNat(n / 10) + [Digit(n % 10)]
  }

  /** `strconv.FormatInt(n, 10)`, also `%d`. */
  function PrintInt(n: int): (s: string)
    ensures |s| >= 1
  {
    if n < 0 then "-" + PrintNat(-n) else PrintNat(n)
  }

  function NatOf(s: string): nat
    requires Digits(s)
  {
    if s == "" then 0 else 10 * NatOf(s[..|s| - 1]) + Value(s[|s| - 1])
  }

  const MIN_INT64: int := -0x8000_0000_0000_0000
  const MAX_INT64: int := 0x7fff_ffff_ffff_ffff

  predicate IsInt64(n: int) { MIN_INT64 <= n <= MAX_INT64 }

  /** The wrap-around of int64 arithmetic. */
  function Wrap(n: int): (r: int)
    ensures IsInt64(r)
  {
    var m := n % 0x1_0000_0000_0000_0000;
    if m > MAX_INT64 then m - 0x1_0000_0000_0000_0000 else m
  }

  /** `strconv.ParseInt(s, 10, 64)`. */
  function ParseInt(s: string): (r: Option<int>)
    ensures r.Some? ==> IsInt64(r.value)
  {
    var digits := if s != "" && (s[0] == '-' || s[0] == '+') then s[1..] else s;
    if digits == "" || !Digits(digits) then None
    else
      var n: int := if s[0] == '-' then -(NatOf(digits) as int) else NatOf(digits) as int;
      if IsInt64(n) then Some(n) else None
  }

  lemma {:induction false} NatRoundTrip(n: nat)
    ensures NatOf(PrintNat(n)) == n
  {
    if n >= 10 {
      NatRoundTrip(n / 10);
      var s := PrintNat(n);
      assert s[..|s| - 1] == PrintNat(n / 10);
    }
  }

  lemma IntRoundTrip(n: int)
    requires IsInt64(n)
    ensures ParseInt(PrintInt(n)) == Some(n)
  {
    NatRoundTrip(if n < 0 then -n else n);
    if n < 0 {
      assert PrintInt(n)[1..] == PrintNat(-n);
    } else {
      var s := PrintNat(n);
      assert IsDigit(s[0]);
    }
  }

  lemma PrintIntInjective(m: int, n: int)
    requires PrintInt(m) == PrintInt(n)
    ensures m == n
  {
    NatRoundTrip(if m < 0 then -m else m);
    NatRoundTrip(if n < 0 then -n else n);
    assert PrintNat(if m < 0 then -m else m)[0] != '-' && PrintNat(if n < 0 then -n else n)[0] != '-';
    if m < 0 {
      assert PrintInt(m)[0] == '-' && PrintInt(m)[1..] == PrintNat(-m);
      assert PrintInt(n)[1..] == PrintNat(-n);
    }
  }
}
