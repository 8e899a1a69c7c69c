/** The part of Go's JSON printer (RFC 8259 section 7, with `encoding/json`'s HTML escapes) that the
    stream converter relies on, and what a search for a byte marker finds in printed text.

    A string is a sequence of Unicode characters. */
module JsonText {
  import opened Text

  // ----- printing strings -----

  function Hex(d: nat): char
    requires d < 16
  {
    if d < 10 then ('0' as int + d) as char else ('a' as int + d - 10) as char
  }

  predicate Html(c: char) { c == '<' || c == '>' || c == '&' }

  predicate Verbatim(c: char) {
    c >= ' ' && c != '"' && c != '\\' && !Html(c) && c as int != 0x2028 && c as int != 0x2029
  }

  function EscapedChar(c: char): (r: string)
    ensures 1 <= |r|
  {
    if Verbatim(c) then [c]
    else if c == '"' then ['\\', '"']
    else if c == '\\' then ['\\', '\\']
    else if c == '\n' then ['\\', 'n']
    else if c == '\r' then ['\\', 'r']
    else if c == '\t' then ['\\', 't']
    else if c as int == 8 then ['\\', 'b']
    else if c as int == 12 then ['\\', 'f']
    else if c as int == 0x2028 then ['\\', 'u', '2', '0', '2', '8']
    else if c as int == 0x2029 then ['\\', 'u', '2', '0', '2', '9']
    else ['\\', 'u', '0', '0', Hex(c as int / 16), Hex(c as int % 16)]
  }

  function Escaped(s: string): (r: string)
    ensures s == "" ==> r == ""
  {
    Flat(seq(|s|, i requires 0 <= i < |s| => EscapedChar(s[i])))
  }

  function Flat(parts: seq<string>): string { if parts == [] then "" else parts[0] + Flat(parts[1..]) }

  lemma EscapedStep(s: string)
    requires s != ""
    ensures Escaped(s) == EscapedChar(s[0]) + Escaped(s[1..])
  {
    var parts := seq(|s|, i requires 0 <= i < |s| => EscapedChar(s[i]));
    assert parts[1..] == seq(|s[1..]|, i requires 0 <= i < |s[1..]| => EscapedChar(s[1..][i]));
  }

  /** `json.Marshal` of a string. */
  function Quote(s: string): string { ['"'] + (Escaped(s) + ['"']) }

  lemma CharsAreApart(c: char, d: char, x: string, y: string)
    requires EscapedChar(c) + x == EscapedChar(d) + y
    ensures c == d && x == y
  {
    var e, f := EscapedChar(c), EscapedChar(d);
    assert (e + x)[0] == e[0] && (f + y)[0] == f[0];
    if |e| > 1 && |f| > 1 {
      assert (e + x)[1] == e[1] && (f + y)[1] == f[1];
      if |e| > 2 && |f| > 2 {
        assert forall i :: 2 <= i < 6 ==> (e + x)[i] == e[i] && (f + y)[i] == f[i];
        HexIsInjective(c, d);
      }
    }
    assert c == d;
    assert x == (e + x)[|e|..] == (f + y)[|f|..] == y;
  }

  lemma HexIsInjective(c: char, d: char)
    requires |EscapedChar(c)| == 6 && EscapedChar(c) == EscapedChar(d)
    ensures c == d
  {
    var e, f := EscapedChar(c), EscapedChar(d);
    assert e[1] == f[1] && e[2] == f[2] && e[4] == f[4] && e[5] == f[5];
  }

  lemma {:induction false} EscapedIsInjective(s: string, t: string)
    requires Escaped(s) == Escaped(t)
    ensures s == t
  {
    if s != "" { EscapedStep(s); }
    if t != "" { EscapedStep(t); }
    if s != "" && t != "" {
      CharsAreApart(s[0], t[0], Escaped(s[1..]), Escaped(t[1..]));
      EscapedIsInjective(s[1..], t[1..]);
    }
  }

  // ----- objects as printed -----

  /** What a printer emits after an opening brace: strings, each followed by bare text. */
  datatype Doc = End | More(body: string, after: string, rest: Doc)

  function Print(d: Doc): string {
    match d
    case End => ""
    case More(body, after, rest) => Quote(body) + (after + Print(rest))
  }

  predicate Word(c: char) { 'a' <= c <= 'z' || c == '_' }

  predicate Words(s: string) { forall i :: 0 <= i < |s| ==> Word(s[i]) }

  /** Bare text holds no quote and separates strings from letters; only words are keys. */
  predicate Bare(body: string, after: string) {
    && after != "" && '"' !in after && !Word(after[0])
    && (after[0] == ':' ==> Words(body) && (|after| > 1 ==> !Blank(after[1])))
  }

  predicate Blank(c: char) { c == ' ' || c == '\t' || c == '\n' || c == '\r' }

  predicate Printed(d: Doc) {
    match d
    case End => true
    case More(body, after, rest) => Bare(body, after) && Printed(rest)
  }

  // ----- searching for a key -----

  /** `"key":` */
  function Marker(key: string): string { ['"'] + (key + ['"', ':']) }

  /** What follows the first occurrence of `m`. */
  function CutAfter(s: string, m: string): (r: Option<string>) {
    if m <= s then Some(s[|m|..]) else if s == "" then None else CutAfter(s[1..], m)
  }

  lemma {:induction false} CutAfterIsIndex(s: string, m: string)
    ensures CutAfter(s, m) == match Index(s, m) case None => None case Some(i) => Some(s[i + |m|..])
  {
    if !(m <= s) && s != "" {
      CutAfterIsIndex(s[1..], m);
      if Index(s[1..], m).Some? {
        var k := Index(s[1..], m).value;
        assert s[1..][k + |m|..] == s[k + 1 + |m|..];
      }
    }
  }

  /** No occurrence of `m` starts in bare text. */
  lemma {:induction false} SkipBare(a: string, x: string, m: string)
    requires '"' !in a && m != "" && m[0] == '"'
    ensures CutAfter(a + x, m) == CutAfter(x, m)
  {
    if a == "" {
      assert a + x == x;
    } else {
      assert (a + x)[0] == a[0] && (a + x)[1..] == a[1..] + x;
      SkipBare(a[1..], x, m);
    }
  }

  /** A word and a quote match printed text only if they are all of a string and its closing quote. */
  lemma {:induction false} WordMatch(k: string, s: string, x: string, y: string)
    requires Words(k) && k + (['"'] + y) <= Escaped(s) + (['"'] + x)
    ensures k == s && y <= x
  {
    var l, r := k + (['"'] + y), Escaped(s) + (['"'] + x);
    assert l[0] == r[0] && l[0] == if k == "" then '"' else k[0];
    if s == "" {
      assert r == ['"'] + x && l == ['"'] + y;
      assert l[1..] == y && r[1..] == x;
    } else {
      EscapedStep(s);
      var e, r' := EscapedChar(s[0]), Escaped(s[1..]) + (['"'] + x);
      Assoc(e, Escaped(s[1..]), ['"'] + x);
      assert r[0] == e[0];
      assert k != "" && e == [s[0]];
      assert l[1..] == k[1..] + (['"'] + y) && r[1..] == r';
      assert l[1..] <= r[1..];
      WordMatch(k[1..], s[1..], x, y);
      assert k == [k[0]] + k[1..] && s == [s[0]] + s[1..];
    }
  }

  /** `"key":` and what must follow it. */
  function MarkerAnd(key: string, y: string): string { ['"'] + (key + (['"'] + ([':'] + y))) }

  lemma MarkerIs(key: string)
    ensures Marker(key) == MarkerAnd(key, "")
  {
    assert ['"'] + ([':'] + "") == ['"', ':'];
  }

  lemma AtString(b: string, k: string, y: string, x: string)
    requires Words(k)
    ensures MarkerAnd(k, y) <= Quote(b) + x <==> b == k && [':'] + y <= x
  {
    var m, s := MarkerAnd(k, y), Quote(b) + x;
    assert s == ['"'] + (Escaped(b) + (['"'] + x));
    assert m[1..] == k + (['"'] + ([':'] + y)) && s[1..] == Escaped(b) + (['"'] + x);
    if m <= s {
      assert m[1..] <= s[1..];
      WordMatch(k, b, x, [':'] + y);
    }
    if b == k && [':'] + y <= x {
      WordsAreBare(k);
      assert s == MarkerAnd(k, y) + x[1 + |y|..];
    }
  }

  lemma {:induction false} WordsAreBare(k: string)
    requires Words(k)
    ensures Escaped(k) == k
  {
    if k != "" {
      EscapedStep(k);
      WordsAreBare(k[1..]);
    }
  }

  /** No marker starts inside a string or at its closing quote. */
  lemma {:induction false} SkipBody(s: string, k: string, y: string, x: string)
    requires Words(k) && k != "" && x != "" && !Word(x[0]) && (x[0] == ':' ==> Words(s))
    ensures CutAfter(Escaped(s) + (['"'] + x), MarkerAnd(k, y)) == CutAfter(x, MarkerAnd(k, y))
  {
    var m, t := MarkerAnd(k, y), Escaped(s) + (['"'] + x);
    assert m[0] == '"' && m[1] == k[0];
    if s == "" {
      assert t == ['"'] + x && t[1..] == x && t[1] == x[0];
    } else {
      EscapedStep(s);
      var e, t' := EscapedChar(s[0]), Escaped(s[1..]) + (['"'] + x);
      assert t == e + t';
      SkipBody(s[1..], k, y, x);
      if s[0] == '"' {
        assert t[0] == '\\' && t[1..] == ['"'] + t' && t[1..][1..] == t';
        QuoteInside(s[1..], k, y, x);
      } else {
        assert '"' !in e;
        SkipBare(e, t', m);
      }
    }
  }

  lemma QuoteInside(s: string, k: string, y: string, x: string)
    requires Words(k) && x != "" && x[0] != ':'
    ensures !(MarkerAnd(k, y) <= ['"'] + (Escaped(s) + (['"'] + x)))
  {
    var m, t := MarkerAnd(k, y), ['"'] + (Escaped(s) + (['"'] + x));
    if m <= t {
      assert m[1..] == k + (['"'] + ([':'] + y)) && t[1..] == Escaped(s) + (['"'] + x);
      assert m[1..] <= t[1..];
      WordMatch(k, s, x, [':'] + y);
    }
  }

  lemma SkipString(b: string, a: string, k: string, y: string, x: string)
    requires Bare(b, a) && Words(k) && k != "" && !(MarkerAnd(k, y) <= Quote(b) + (a + x))
    ensures CutAfter(Quote(b) + (a + x), MarkerAnd(k, y)) == CutAfter(x, MarkerAnd(k, y))
  {
    var s := Quote(b) + (a + x);
    assert s[1..] == Escaped(b) + (['"'] + (a + x));
    assert (a + x)[0] == a[0];
    SkipBody(b, k, y, a + x);
    SkipBare(a, x, MarkerAnd(k, y));
  }

  // ----- what the searches find -----

  /** What is printed after a key and its colon. */
  function AfterKey(d: Doc, k: string): Option<string> {
    match d
    case End => None
    case More(b, a, rest) =>
      if b == k && a != "" && a[0] == ':' then Some(a[1..] + Print(rest)) else AfterKey(rest, k)
  }

  lemma AtKey(k: string, a: string, x: string)
    requires Words(k) && a != "" && a[0] == ':'
    ensures CutAfter(Quote(k) + (a + x), Marker(k)) == Some(a[1..] + x)
  {
    WordsAreBare(k);
    CutAtStart(Marker(k), a[1..] + x);
    assert Marker(k) + (a[1..] + x) == Quote(k) + (a + x);
  }

  lemma CutAtStart(m: string, x: string)
    ensures CutAfter(m + x, m) == Some(x)
  {
    assert (m + x)[|m|..] == x;
  }

  lemma {:induction false} MarkerFindsKey(d: Doc, k: string)
    requires Printed(d) && Words(k) && k != ""
    ensures CutAfter(Print(d), Marker(k)) == AfterKey(d, k)
  {
    MarkerIs(k);
    match d
    case End =>
    case More(b, a, rest) =>
      var x := a + Print(rest);
      AtString(b, k, "", x);
      assert [':'] <= x <==> x[0] == ':';
      assert x[0] == a[0];
      if b == k && a[0] == ':' {
        AtKey(k, a, Print(rest));
      } else {
        SkipString(b, a, k, "", Print(rest));
        MarkerFindsKey(rest, k);
      }
  }

  /** The key has exactly this string as its value somewhere. */
  predicate Has(d: Doc, k: string, w: string) {
    match d
    case End => false
    case More(b, a, rest) => (b == k && a == ":" && rest.More? && rest.body == w) || Has(rest, k, w)
  }

  /** `"key":"value"` */
  function Pair(k: string, w: string): string { MarkerAnd(k, ['"'] + (w + ['"'])) }

  lemma {:induction false} PairFindsValue(d: Doc, k: string, w: string)
    requires Printed(d) && Words(k) && k != "" && Words(w)
    ensures CutAfter(Print(d), Pair(k, w)).Some? <==> Has(d, k, w)
  {
    match d
    case End =>
    case More(b, a, rest) =>
      AtString(b, k, ['"'] + (w + ['"']), a + Print(rest));
      AtColon(a, rest, w);
      if !(Pair(k, w) <= Quote(b) + (a + Print(rest))) {
        SkipString(b, a, k, ['"'] + (w + ['"']), Print(rest));
        PairFindsValue(rest, k, w);
      }
  }

  lemma AtColon(a: string, rest: Doc, w: string)
    requires a != "" && '"' !in a && Words(w)
    ensures [':'] + (['"'] + (w + ['"'])) <= a + Print(rest) <==> a == ":" && rest.More? && rest.body == w
  {
    var l, x := [':'] + (['"'] + (w + ['"'])), a + Print(rest);
    assert l[0] == ':' && l[1] == '"' && x[0] == a[0];
    if |a| > 1 {
      assert x[1] == a[1];
    } else if a == ":" && rest.More? {
      assert l[1..] == ['"'] + (w + ['"']) && x[1..] == Print(rest);
      assert l <= x <==> l[1..] <= x[1..];
      AtQuote(rest.body, w, rest.after + Print(rest.rest));
    } else {
      assert |a| == 1;
    }
  }

  lemma AtQuote(b: string, w: string, x: string)
    requires Words(w)
    ensures ['"'] + (w + ['"']) <= Quote(b) + x <==> b == w
  {
    var l, s := ['"'] + (w + ['"']), Quote(b) + x;
    assert l[1..] == w + (['"'] + "") && s[1..] == Escaped(b) + (['"'] + x);
    if l <= s {
      assert l[1..] <= s[1..];
      WordMatch(w, b, x, "");
    }
    if b == w {
      WordsAreBare(w);
      assert s == l + x;
    }
  }

  // ----- reading a string back -----

  /** How much of the text is the rest of a string, up to and with its closing quote. */
  function Closing(s: string): (n: Option<nat>)
    ensures n.Some? ==> n.value <= |s|
  {
    if s == "" then None
    else if s[0] == '"' then Some(1)
    else if s[0] != '\\' then match Closing(s[1..]) case None => None case Some(n) => Some(n + 1)
    else if |s| == 1 then None
    else match Closing(s[2..]) case None => None case Some(n) => Some(n + 2)
  }

  function SkipBlanks(s: string): string {
    if s != "" && Blank(s[0]) then SkipBlanks(s[1..]) else s
  }

  /** The string literal that a text starts with, after blanks. */
  function Literal(s: string): Option<string> {
    var u := SkipBlanks(s);
    if u == "" || u[0] != '"' then None
    else match Closing(u[1..]) case None => None case Some(n) => Some(u[..n + 1])
  }

  lemma {:induction false} ClosingIsQuote(s: string, x: string)
    ensures Closing(Escaped(s) + (['"'] + x)) == Some(|Escaped(s)| + 1)
  {
    var t := ['"'] + x;
    if s == "" {
      assert Escaped(s) + t == t;
    } else {
      EscapedStep(s);
      ClosingIsQuote(s[1..], x);
      EscapedCharIsEscape(s[0]);
      ClosingChar(EscapedChar(s[0]), Escaped(s[1..]) + t);
      Assoc(EscapedChar(s[0]), Escaped(s[1..]), t);
    }
  }

  /** One plain character, or a backslash, one character and perhaps four plain ones. */
  predicate Escape(e: string) {
    || (|e| == 1 && Plain(e[0]))
    || (|e| == 2 && e[0] == '\\')
    || (|e| == 6 && e[0] == '\\' && Plain(e[2]) && Plain(e[3]) && Plain(e[4]) && Plain(e[5]))
  }

  predicate Plain(c: char) { c != '"' && c != '\\' }

  lemma EscapedCharIsEscape(c: char)
    ensures Escape(EscapedChar(c))
  {
  }

  lemma ClosingChar(e: string, x: string)
    requires Escape(e) && Closing(x).Some?
    ensures Closing(e + x) == Some(|e| + Closing(x).value)
  {
    var t := e + x;
    assert t[0] == e[0];
    if |e| == 1 {
      assert t[1..] == x;
    } else if |e| == 2 {
      assert t[2..] == x;
    } else {
      assert t[2..] == e[2..] + x;
      ClosingHex(e[2..], x);
    }
  }

  lemma ClosingHex(h: string, x: string)
    requires |h| == 4 && Plain(h[0]) && Plain(h[1]) && Plain(h[2]) && Plain(h[3])
    requires Closing(x).Some?
    ensures Closing(h + x) == Some(4 + Closing(x).value)
  {
    var t := h + x;
    assert t[0] == h[0] && t[1] == h[1] && t[2] == h[2] && t[3] == h[3] && t[4..] == x;
    assert t[1..][1..] == t[2..] && t[2..][1..] == t[3..] && t[3..][1..] == t[4..];
    assert t[1..][0] == t[1] && t[2..][0] == t[2] && t[3..][0] == t[3];
    assert Closing(t[3..]) == Some(1 + Closing(x).value);
    assert Closing(t[2..]) == Some(2 + Closing(x).value);
  }

  lemma LiteralIsQuote(s: string, x: string)
    ensures Literal(Quote(s) + x) == Some(Quote(s))
  {
    var t := Quote(s) + x;
    assert t[1..] == Escaped(s) + (['"'] + x);
    ClosingIsQuote(s, x);
    assert t[..|Quote(s)|] == Quote(s);
  }

  /** The string printed after the first marker that is found. */
  function Extracted(data: string, marker: string): Option<string> {
    match CutAfter(data, marker) case None => None case Some(t) => Literal(t)
  }

  /** The value of the first key `k`, if it is a string. */
  function ValueOf(d: Doc, k: string): Option<string> {
    match d
    case End => None
    case More(b, a, rest) =>
      if b == k && a != "" && a[0] == ':' then if a == ":" && rest.More? then Some(rest.body) else None
      else ValueOf(rest, k)
  }

  function Quoted(v: Option<string>): Option<string> { if v.None? then None else Some(Quote(v.value)) }

  lemma {:induction false} AfterKeyIsValue(d: Doc, k: string)
    requires Printed(d)
    ensures AfterKey(d, k).None? ==> ValueOf(d, k).None?
    ensures AfterKey(d, k).Some? ==> Literal(AfterKey(d, k).value) == Quoted(ValueOf(d, k))
  {
    match d
    case End =>
    case More(b, a, rest) =>
      if b == k && a[0] == ':' {
        var t := a[1..] + Print(rest);
        if a != ":" {
          assert t[0] == a[1] && a[1] in a;
        } else {
          assert t == Print(rest);
          if rest.More? { LiteralIsQuote(rest.body, rest.after + Print(rest.rest)); }
        }
      } else {
        AfterKeyIsValue(rest, k);
      }
  }

  /** In printed text a marker is never found inside a string, and what is cut out behind it is
      exactly the printed value. */
  lemma ExtractedIsValue(d: Doc, k: string)
    requires Printed(d) && Words(k) && k != ""
    ensures Extracted(['{'] + Print(d), Marker(k)) == Quoted(ValueOf(d, k))
  {
    SkipBare(['{'], Print(d), Marker(k));
    MarkerFindsKey(d, k);
    AfterKeyIsValue(d, k);
  }

  lemma ContainsIsHas(d: Doc, k: string, w: string)
    requires Printed(d) && Words(k) && k != "" && Words(w)
    ensures CutAfter(['{'] + Print(d), Pair(k, w)).Some? <==> Has(d, k, w)
  {
    SkipBare(['{'], Print(d), Pair(k, w));
    PairFindsValue(d, k, w);
  }
}
