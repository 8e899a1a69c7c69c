/** internal/errors/classify.go: account status codes are read back out of error texts, through any
    number of `context: ` layers. */
module StatusCode {
  import opened Text

  predicate IsCode(s: string) { s == "401" || s == "402" || s == "403" || s == "404" || s == "429" }

  /** A code at the start of the text, followed by a delimiter or the end. */
  function CodeAt(s: string): Option<string> {
    if |s| >= 3 && IsCode(s[..3]) && (|s| == 3 || s[3] == ':' || s[3] == ' ') then Some(s[..3]) else None
  }

  lemma CodesAre(s: string)
    ensures CodeAt(s).Some? <==>
      |s| >= 3 && s[..3] in {"401", "402", "403", "404", "429"} && (|s| > 3 ==> s[3] == ':' || s[3] == ' ')
    ensures CodeAt(s).Some? ==> CodeAt(s).value == s[..3]
  {
  }

  function SkipSpaces(s: string): string { if s != "" && s[0] == ' ' then SkipSpaces(s[1..]) else s }

  lemma {:induction false} SpacesAre(s: string) returns (k: nat)
    ensures k <= |s| && SkipSpaces(s) == s[k..] && (forall i :: 0 <= i < k ==> s[i] == ' ') && (k < |s| ==> s[k] != ' ')
  {
    k := 0;
    if s != "" && s[0] == ' ' {
      var n := SpacesAre(s[1..]);
      k := n + 1;
      assert s[1..][n..] == s[k..];
      assert forall i :: 0 < i < k ==> s[i] == s[1..][i - 1];
    }
  }

  /** The code behind the first colon that has one. */
  function Scan(s: string): Option<string> {
    if s == "" then None
    else if s[0] == ':' && CodeAt(SkipSpaces(s[1..])).Some? then CodeAt(SkipSpaces(s[1..]))
    else Scan(s[1..])
  }

  function Behind(s: string, i: nat): Option<string>
    requires i < |s|
  {
    if s[i] == ':' then CodeAt(SkipSpaces(s[i + 1..])) else None
  }

  /** `Scan` is the leftmost qualifying colon, and nothing if there is none. */
  lemma {:induction false} ScanIsLeftmost(s: string)
    ensures Scan(s).None? ==> forall i :: 0 <= i < |s| ==> Behind(s, i).None?
    ensures Scan(s).Some? ==> exists i :: 0 <= i < |s| && Behind(s, i) == Scan(s) && forall j :: 0 <= j < i ==> Behind(s, j).None?
  {
    if s != "" && Behind(s, 0).None? {
      ScanIsLeftmost(s[1..]);
      forall i | 0 <= i < |s[1..]| ensures Behind(s[1..], i) == Behind(s, i + 1) { assert s[1..][i + 1..] == s[i + 2..]; }
      forall i | 0 < i < |s| ensures Behind(s, i) == Behind(s[1..], i - 1) {}
      if Scan(s).Some? {
        var i :| 0 <= i < |s[1..]| && Behind(s[1..], i) == Scan(s[1..]) && forall j :: 0 <= j < i ==> Behind(s[1..], j).None?;
        assert Behind(s, i + 1) == Scan(s) && forall j :: 0 <= j < i + 1 ==> Behind(s, j).None?;
      }
    } else if s != "" {
      assert Behind(s, 0) == Scan(s);
    }
  }

  // ----- wrapping -----

  lemma {:induction false} SkipSpacesBefore(b: string, x: string)
    ensures SkipSpaces(b + ([':'] + x)) == SkipSpaces(b) + ([':'] + x)
  {
    var t := b + ([':'] + x);
    if b == "" {
      assert t == [':'] + x;
    } else {
      assert t[0] == b[0] && t[1..] == b[1..] + ([':'] + x);
      SkipSpacesBefore(b[1..], x);
    }
  }

  /** What follows a colon does not matter for a code before it. */
  lemma CodeBeforeColon(c: string, x: string, y: string)
    ensures CodeAt(c + ([':'] + x)) == CodeAt(c + ([':'] + y))
  {
    var s, t := c + ([':'] + x), c + ([':'] + y);
    if |c| >= 3 {
      assert s[..3] == c[..3] == t[..3] && s[3] == t[3];
    } else {
      assert s[|c|] == t[|c|] == ':';
      if |s| >= 3 { assert s[..3][|c|] == ':'; }
      if |t| >= 3 { assert t[..3][|c|] == ':'; }
    }
  }

  lemma {:induction false} ScanPast(a: string, x: string)
    requires Scan(a + [':']).None?
    ensures Scan(a + ([':'] + x)) == Scan([':'] + x)
  {
    var s, t := a + ([':'] + x), a + [':'];
    if a == "" {
      assert s == [':'] + x;
    } else {
      assert s[0] == t[0] == a[0] && s[1..] == a[1..] + ([':'] + x) && t[1..] == a[1..] + [':'];
      SkipSpacesBefore(a[1..], x);
      SkipSpacesBefore(a[1..], "");
      assert [':'] + "" == [':'];
      CodeBeforeColon(SkipSpaces(a[1..]), x, "");
      ScanPast(a[1..], x);
    }
  }

  /** A layer without a code of its own, behind another layer's colon. */
  predicate Quiet(context: string) { Scan([':'] + (context + [':'])).None? }

  function Wrapped(layers: seq<string>, message: string): string {
    if layers == [] then message else layers[0] + ([':'] + ([' '] + Wrapped(layers[1..], message)))
  }

  lemma ScanBehindColon(s: string, c: string)
    requires CodeAt(s) == Some(c)
    ensures Scan([':'] + ([' '] + s)) == Some(c)
  {
    var t := [':'] + ([' '] + s);
    assert s[0] == s[..3][0] && s[0] != ' ';
    assert t[1..] == [' '] + s && t[1..][1..] == s;
    assert SkipSpaces([' '] + s) == s;
  }

  /** The text behind a layer's colon starts with the next layer. */
  lemma ColonBeforeLayer(w: string, x: string)
    requires Quiet(w)
    ensures Scan([':'] + ([' '] + (w + ([':'] + x)))) == Scan([':'] + x)
  {
    var inner := w + ([':'] + x);
    var t, q := [':'] + ([' '] + inner), [':'] + (w + [':']);
    assert t[0] == ':' && t[1..] == [' '] + inner && t[1..][1..] == inner;
    assert q[0] == ':' && q[1..] == w + [':'];
    SkipSpacesBefore(w, x);
    SkipSpacesBefore(w, "");
    assert [':'] + "" == [':'];
    CodeBeforeColon(SkipSpaces(w), x, "");
    assert SkipSpaces([' '] + inner) == SkipSpaces(inner);
    assert Scan(t) == Scan([' '] + inner) == Scan(inner);
    ScanPast(w, x);
  }

  lemma {:induction false} QuietLayersBehind(layers: seq<string>, message: string)
    requires (forall i :: 0 <= i < |layers| ==> Quiet(layers[i])) && CodeAt(message).Some?
    ensures Scan([':'] + ([' '] + Wrapped(layers, message))) == CodeAt(message)
    decreases |layers|
  {
    if layers == [] {
      ScanBehindColon(message, CodeAt(message).value);
    } else {
      ColonBeforeLayer(layers[0], [' '] + Wrapped(layers[1..], message));
      QuietLayersBehind(layers[1..], message);
    }
  }

  /** Any number of layers that carry no code of their own leave the code of the message readable.  The
      outermost one stands behind no colon, so it may itself begin like a code. */
  lemma WrappingKeepsCode(layers: seq<string>, message: string)
    requires layers != [] && Scan(layers[0] + [':']).None? && (forall i :: 1 <= i < |layers| ==> Quiet(layers[i]))
    requires CodeAt(message).Some?
    ensures Scan(Wrapped(layers, message)) == CodeAt(message)
  {
    ScanPast(layers[0], [' '] + Wrapped(layers[1..], message));
    QuietLayersBehind(layers[1..], message);
  }

  // ----- the code -----

  method CodeAtDelimiter(lower: string, start: nat) returns (code: Option<string>)
    ensures code == if start < |lower| then CodeAt(lower[start..]) else None
  {
    if start >= |lower| {
      return None;
    }
    var codes := ["401", "402", "403", "404", "429"];
    var s := lower[start..];
    for k := 0 to |codes|
      invariant forall j :: 0 <= j < k && codes[j] <= s ==> |s| > 3 && s[3] != ':' && s[3] != ' '
    {
      if codes[k] <= s {
        var rest := s[3..];
        if rest == "" || rest[0] == ':' || rest[0] == ' ' {
          assert s[..3] == codes[k];
          return Some(codes[k]);
        }
      }
    }
    assert |s| >= 3 && IsCode(s[..3]) ==> exists j :: 0 <= j < |codes| && codes[j] == s[..3] by {
      assert codes[0] == "401" && codes[1] == "402" && codes[2] == "403" && codes[3] == "404" && codes[4] == "429";
    }
    return None;
  }

  method PastSpaces(s: string, from: nat) returns (i: nat)
    requires from <= |s|
    ensures from <= i <= |s| && s[i..] == SkipSpaces(s[from..])
  {
    i := from;
    while i < |s| && s[i] == ' '
      invariant from <= i <= |s| && SkipSpaces(s[i..]) == SkipSpaces(s[from..])
    {
      assert s[i..][1..] == s[i + 1..];
      i := i + 1;
    }
  }

  /** The scan with a moving offset, from colon to colon. */
  method ScanStatusCode(lower: string) returns (code: Option<string>)
    ensures code == Scan(lower)
  {
    var offset := 0;
    assert lower[0..] == lower;
    while true
      invariant offset <= |lower| && Scan(lower) == Scan(lower[offset..])
      decreases |lower| - offset
    {
      var search := lower[offset..];
      var index := Index(search, ":");
      if index.None? {
        NoColonNoCode(search);
        return None;
      }
      var position := offset + index.value + 1;
      SkipToColon(search, index.value);
      assert search[index.value..] == lower[position - 1..] && search[index.value..][0] == ':';
      assert lower[position - 1..][1..] == lower[position..];
      var trimmed := PastSpaces(lower, position);
      code := CodeAtDelimiter(lower, trimmed);
      if code.Some? {
        return;
      }
      offset := position;
    }
  }

  lemma {:induction false} NoColonNoCode(s: string)
    requires Index(s, ":").None?
    ensures Scan(s).None?
  {
    if s != "" {
      assert !(":" <= s) && s[0] != ':';
      NoColonNoCode(s[1..]);
    }
  }

  lemma {:induction false} SkipToColon(s: string, i: nat)
    requires Index(s, ":") == Some(i)
    ensures i < |s| && s[i] == ':' && Scan(s) == Scan(s[i..])
  {
    if i > 0 {
      assert !(":" <= s) && s[0] != ':';
      SkipToColon(s[1..], i - 1);
      assert s[1..][i - 1..] == s[i..];
    } else {
      assert s[0..] == s;
    }
  }
}
