/** cmd/server/grok_tools_rewrite.go: links under the inference prefix are rewritten
    while a response streams through the writer.

    A response byte is modelled as a `char`.  `Ideal` is the reference: every link, wherever it
    starts, is redirected.  `ReplaceBoth` is what one call of the writer's two `bytes.ReplaceAll`
    passes computes, and the `ToolsLinkWriter` class is the streaming writer itself. */
module ToolsLinks {
  import opened Text

  const FILES_LINK := "/grok/v1/files/"
  const VIDEOS_LINK := "/grok/v1/videos/"
  const FILES_TO := "/api/grok/tools/v1/files/"
  const VIDEOS_TO := "/api/grok/tools/v1/videos/"
  /** What replaces the first five bytes, `/grok`, of either link. */
  const REDIRECT := "/api/grok/tools"

  /** The facts about the two links that the proofs need. */
  predicate Shape(link: string) {
    && 15 <= |link| <= 16
    && link[0] == '/' && link[1] == 'g' && link[|link| - 1] == '/' && link[|link| - 2] != '/'
    && link[1] != '/' && link[2] != '/' && link[3] != '/' && link[4] == 'k'
    && link[5] == '/' && link[6] == 'v' && link[7] == '1' && link[8] == '/' && link[9] != '1'
    && (forall i :: 1 <= i < |link| - 1 ==> SafeAt(link, i))
    && NoSlashA(link)
  }

  /** No link starts at this byte. */
  predicate SafeAt(a: string, i: nat)
    requires i < |a|
  {
    a[i] != '/' || (i + 1 < |a| && a[i + 1] != 'g')
  }

  predicate NoSlashA(t: string) { forall i :: 0 <= i < |t| - 1 ==> NoSlashAAt(t, i) }

  predicate NoSlashAAt(t: string, i: nat)
    requires i + 1 < |t|
  {
    t[i] != '/' || t[i + 1] != 'a'
  }

  function To(link: string): string
    requires |link| >= 5
  {
    REDIRECT + link[5..]
  }

  lemma LinkShapes()
    ensures Shape(FILES_LINK) && FILES_TO == To(FILES_LINK)
    ensures Shape(VIDEOS_LINK) && VIDEOS_TO == To(VIDEOS_LINK)
    ensures FILES_LINK[..9] == VIDEOS_LINK[..9] && FILES_LINK[9] != VIDEOS_LINK[9]
    ensures |FILES_LINK| == 15 && |VIDEOS_LINK| == 16
  {
  }

  // ----- one-shot rewriting -----

  /** `bytes.ReplaceAll`: leftmost matches, which do not overlap. */
  function ReplaceAll(s: string, from: string, to: string): string
    requires from != ""
    decreases |s|
  {
    if s == "" then ""
    else if from <= s then to + ReplaceAll(s[|from|..], from, to)
    else [s[0]] + ReplaceAll(s[1..], from, to)
  }

  function ReplaceBoth(s: string): string {
    ReplaceAll(ReplaceAll(s, FILES_LINK, FILES_TO), VIDEOS_LINK, VIDEOS_TO)
  }

  predicate AtLink(s: string) { FILES_LINK <= s || VIDEOS_LINK <= s }

  /** Every occurrence of a link is redirected, also one whose first slash is the last slash of
      the link before it. */
  function Ideal(s: string): string {
    if s == "" then ""
    else if AtLink(s) then REDIRECT + Ideal(s[5..])
    else [s[0]] + Ideal(s[1..])
  }

  lemma LinksAre(s: string)
    ensures s != "" ==>
      Ideal(s) == if "/grok/v1/files/" <= s || "/grok/v1/videos/" <= s then "/api/grok/tools" + Ideal(s[5..]) else [s[0]] + Ideal(s[1..])
  {
  }

  /** The same, for the occurrences of one link. */
  function Redirected(s: string, link: string): string
    requires |link| >= 5
  {
    if s == "" then ""
    else if link <= s then REDIRECT + Redirected(s[5..], link)
    else [s[0]] + Redirected(s[1..], link)
  }

  /** Somewhere in `s`, the link is directly followed by the rest of another such link. */
  predicate Overlap(s: string, link: string)
    requires link != ""
  {
    s != "" && (link + link[1..] <= s || Overlap(s[1..], link))
  }

  predicate Chained(s: string) { Overlap(s, FILES_LINK) || Overlap(s, VIDEOS_LINK) }

  // ----- one pass -----

  /** No link starts inside `a`. */
  lemma {:induction false} RedirectedSkips(a: string, s: string, link: string)
    requires Shape(link)
    requires forall i :: 0 <= i < |a| ==> SafeAt(a, i)
    ensures Redirected(a + s, link) == a + Redirected(s, link)
  {
    if a == "" {
      assert a + s == s;
    } else {
      NoLinkHere(a, s, link);
      forall i | 0 <= i < |a[1..]| ensures SafeAt(a[1..], i) { assert SafeAt(a, i + 1); }
      RedirectedSkips(a[1..], s, link);
      assert (a + s)[1..] == a[1..] + s;
      assert [a[0]] + (a[1..] + Redirected(s, link)) == a + Redirected(s, link);
    }
  }

  lemma NoLinkHere(a: string, s: string, link: string)
    requires a != "" && SafeAt(a, 0)
    requires |link| >= 2 && link[0] == '/' && link[1] == 'g'
    ensures !(link <= a + s)
  {
    assert (a + s)[0] == a[0];
    if |a| > 1 {
      assert (a + s)[1] == a[1];
    }
  }

  /** After a link, the scan of `Redirected` is back at the link's last slash. */
  lemma RedirectedAtLink(s: string, link: string)
    requires Shape(link) && link <= s
    ensures Redirected(s, link) == To(link)[..|To(link)| - 1] + Redirected(s[|link| - 1..], link)
  {
    var n := |link|;
    var body := link[5..n - 1];
    BodyOfLink(s, link);
    RedirectedSkips(body, s[n - 1..], link);
    Assoc(REDIRECT, body, Redirected(s[n - 1..], link));
  }

  /** Between its first five bytes and its last slash, a link is safe text. */
  lemma BodyOfLink(s: string, link: string)
    requires Shape(link) && link <= s
    ensures var body := link[5..|link| - 1];
      && (forall i :: 0 <= i < |body| ==> SafeAt(body, i))
      && s[5..] == body + s[|link| - 1..] && REDIRECT + body == To(link)[..|To(link)| - 1]
  {
    var n := |link|;
    var body := link[5..n - 1];
    forall i | 0 <= i < |body| ensures SafeAt(body, i) { assert body[i] == link[5 + i] && SafeAt(link, 5 + i); }
  }

  /** Two links that share a slash. */
  lemma SharedSlash(s: string, link: string)
    requires Shape(link) && link <= s
    ensures link + link[1..] <= s <==> link <= s[|link| - 1..]
  {
    var n := |link|;
    var v := s[n - 1..];
    assert v == s[n - 1..n] + s[n..];
    assert link == ['/'] + link[1..] && s[n - 1..n] == ['/'];
    if link + link[1..] <= s {
      assert s[n..] == (link + link[1..])[n..] + s[2 * n - 1..];
    }
    if link <= v {
      assert v[1..] == s[n..] && link[1..] <= s[n..];
      assert s == link + s[n..];
    }
  }

  lemma {:induction false} OverlapSkips(s: string, link: string, k: nat)
    requires Shape(link) && link <= s && 1 <= k <= |link| - 1
    ensures Overlap(s[1..], link) <==> Overlap(s[k..], link)
  {
    if k > 1 {
      OverlapSkips(s, link, k - 1);
      var v := s[k - 1..];
      assert v[1..] == s[k..];
      assert v[0] == link[k - 1] && v[1] == link[k] && SafeAt(link, k - 1);
      assert (link + link[1..])[0] == '/' && (link + link[1..])[1] == 'g';
    }
  }

  /** One `bytes.ReplaceAll` redirects every link if no two links overlap; otherwise it misses one. */
  lemma {:induction false} ReplaceAllIsRedirected(s: string, link: string)
    requires Shape(link)
    ensures !Overlap(s, link) ==> ReplaceAll(s, link, To(link)) == Redirected(s, link)
    ensures |ReplaceAll(s, link, To(link))| <= |Redirected(s, link)|
    ensures Overlap(s, link) ==> |ReplaceAll(s, link, To(link))| < |Redirected(s, link)|
    decreases |s|
  {
    if s == "" {
    } else if link <= s {
      ReplaceAllAtLink(s, link);
    } else {
      assert link <= link + link[1..];
      ReplaceAllIsRedirected(s[1..], link);
    }
  }

  /** Where an overlap can be, seen from a link. */
  lemma OverlapAtLink(s: string, link: string)
    requires Shape(link) && link <= s
    ensures Overlap(s, link) <==> link <= s[|link| - 1..] || Overlap(s[|link|..], link)
  {
    var v := s[|link| - 1..];
    SharedSlash(s, link);
    OverlapSkips(s, link, |link| - 1);
    assert v[1..] == s[|link|..];
    if link + link[1..] <= v { assert link <= link + link[1..]; }
  }

  lemma {:induction false} ReplaceAllAtLink(s: string, link: string)
    requires Shape(link) && link <= s
    ensures !Overlap(s, link) ==> ReplaceAll(s, link, To(link)) == Redirected(s, link)
    ensures |ReplaceAll(s, link, To(link))| <= |Redirected(s, link)|
    ensures Overlap(s, link) ==> |ReplaceAll(s, link, To(link))| < |Redirected(s, link)|
    decreases |s|, 0
  {
    OverlapAtLink(s, link);
    ReplaceAllIsRedirected(s[|link|..], link);
    if link <= s[|link| - 1..] { RedirectedChained(s, link); } else { RedirectedApart(s, link); }
  }

  lemma RedirectedApart(s: string, link: string)
    requires Shape(link) && link <= s && !(link <= s[|link| - 1..])
    ensures Redirected(s, link) == To(link) + Redirected(s[|link|..], link)
  {
    RedirectedAtLink(s, link);
    RejoinAtSlash(s, link);
  }

  lemma RejoinAtSlash(s: string, link: string)
    requires |link| > 5 && link[|link| - 1] == '/' && link <= s && !(link <= s[|link| - 1..])
    requires Redirected(s, link) == To(link)[..|To(link)| - 1] + Redirected(s[|link| - 1..], link)
    ensures Redirected(s, link) == To(link) + Redirected(s[|link|..], link)
  {
    SlashIsKept(s, link);
    LastOfTo(link);
    MoveLast(To(link), Redirected(s[|link|..], link));
  }

  lemma SlashIsKept(s: string, link: string)
    requires |link| >= 5 && link[|link| - 1] == '/' && link <= s && !(link <= s[|link| - 1..])
    ensures Redirected(s[|link| - 1..], link) == ['/'] + Redirected(s[|link|..], link)
  {
    var v := s[|link| - 1..];
    assert v[0] == s[|link| - 1] == link[|link| - 1];
    assert v[1..] == s[|link|..];
  }

  lemma LastOfTo(link: string)
    requires |link| > 5 && link[|link| - 1] == '/'
    ensures To(link) != "" && To(link)[|To(link)| - 1] == '/'
  {
  }

  lemma MoveLast(a: string, b: string)
    requires a != ""
    ensures a[..|a| - 1] + ([a[|a| - 1]] + b) == a + b
  {
  }

  lemma RedirectedChained(s: string, link: string)
    requires Shape(link) && link <= s && link <= s[|link| - 1..]
    ensures |Redirected(s, link)| > |To(link)| + |Redirected(s[|link|..], link)|
  {
    assert s[|link| - 1..] == ['/'] + s[|link|..];
    RedirectedAtLink(s, link);
    RedirectedTwice(s[|link|..], link);
  }

  /** A link whose first slash is missing is not redirected. */
  lemma RedirectedTwice(u: string, link: string)
    requires Shape(link) && link <= ['/'] + u
    ensures |Redirected(['/'] + u, link)| == |Redirected(u, link)| + 11
  {
    var v, w := ['/'] + u, u[4..];
    assert v[1..] == u && v[5..] == w;
    assert u == link[1..5] + w;
    forall i | 0 <= i < 4 ensures SafeAt(link[1..5], i) {}
    RedirectedSkips(link[1..5], w, link);
  }

  // ----- two passes -----

  lemma RedirectedHead(s: string, link: string, c: char)
    requires Shape(link)
    ensures [c] <= Redirected(s, link) <==> [c] <= s
  {
    if s != "" && link <= s {
      assert Redirected(s, link)[0] == '/' == s[0];
    }
  }

  /** Redirecting the files links makes no new prefix free of `/a`. */
  lemma {:induction false} RedirectedPrefix(s: string, link: string, t: string)
    requires Shape(link) && NoSlashA(t) && t <= Redirected(s, link)
    ensures t <= s
  {
    if |t| <= 1 {
      if t != "" { RedirectedHead(s, link, t[0]); }
    } else {
      assert t[0] == Redirected(s, link)[0] && t[1] == Redirected(s, link)[1] && NoSlashAAt(t, 0);
      assert t == [t[0]] + t[1..];
      forall i | 0 <= i < |t[1..]| - 1 ensures NoSlashAAt(t[1..], i) { assert NoSlashAAt(t, i + 1); }
      RedirectedPrefix(s[1..], link, t[1..]);
    }
  }

  /** The first bytes of a string that hold no slash, except perhaps the last of them, are kept. */
  lemma {:induction false} RedirectedKeeps(s: string, link: string, t: string)
    requires Shape(link) && t <= s
    requires forall i :: 0 <= i < |t| - 1 ==> SafeAt(t, i)
    ensures t <= Redirected(s, link)
    ensures t != "" ==> Redirected(s, link)[|t| - 1..] == Redirected(s[|t| - 1..], link)
  {
    var r := Redirected(s, link);
    if |t| == 0 {
    } else if |t| == 1 {
      RedirectedHead(s, link, t[0]);
      assert t == [t[0]] && r[0..] == r && s[0..] == s;
    } else {
      assert SafeAt(t, 0);
      assert s == t + s[|t|..];
      NoLinkHere(t, s[|t|..], link);
      forall i | 0 <= i < |t[1..]| - 1 ensures SafeAt(t[1..], i) { assert SafeAt(t, i + 1); }
      RedirectedKeeps(s[1..], link, t[1..]);
      KeptStep(s, t, r, Redirected(s[1..], link));
    }
  }

  lemma KeptStep(s: string, t: string, r: string, later: string)
    requires |t| >= 2 && t <= s && r == [s[0]] + later && t[1..] <= later
    ensures t <= r && r[|t| - 1..] == later[|t[1..]| - 1..] && s[1..][|t[1..]| - 1..] == s[|t| - 1..]
  {
    assert t == [t[0]] + t[1..];
  }

  lemma {:induction false} RedirectIsSafe(s: string, i: nat)
    requires i <= 15
    ensures Redirected(REDIRECT[i..] + s, VIDEOS_LINK) == REDIRECT[i..] + Redirected(s, VIDEOS_LINK)
    decreases 15 - i
  {
    var z := REDIRECT[i..] + s;
    if i == 15 {
      assert z == s;
    } else {
      NoVideosInRedirect(s, i);
      assert z[1..] == REDIRECT[i + 1..] + s;
      RedirectIsSafe(s, i + 1);
      assert [REDIRECT[i]] + (REDIRECT[i + 1..] + Redirected(s, VIDEOS_LINK)) == REDIRECT[i..] + Redirected(s, VIDEOS_LINK);
    }
  }

  lemma NoVideosInRedirect(s: string, i: nat)
    requires i < 15
    ensures !(VIDEOS_LINK <= REDIRECT[i..] + s)
  {
    var z := REDIRECT[i..] + s;
    assert z[0] == REDIRECT[i];
    if i == 4 {
      assert z[6] == REDIRECT[10] == 't' && VIDEOS_LINK[6] == 'v';
    } else if i < 14 {
      assert z[1] == REDIRECT[i + 1];
    }
  }

  /** Redirecting the files links and then the videos links redirects exactly the links of the input. */
  lemma {:induction false} TwoPassesAreIdeal(s: string)
    ensures Redirected(Redirected(s, FILES_LINK), VIDEOS_LINK) == Ideal(s)
    decreases |s|
  {
    LinkShapes();
    var w := Redirected(s, FILES_LINK);
    if s == "" {
    } else if FILES_LINK <= s {
      TwoPassesAreIdeal(s[5..]);
      RedirectIsSafe(Redirected(s[5..], FILES_LINK), 0);
      assert REDIRECT[0..] == REDIRECT;
    } else {
      VideosPrefix(s);
      if VIDEOS_LINK <= s {
        TwoPassesAreIdeal(s[5..]);
        var t := s[1..6];
        forall i | 0 <= i < |t| - 1 ensures SafeAt(t, i) { assert t[i] == VIDEOS_LINK[i + 1]; }
        RedirectedKeeps(s[1..], FILES_LINK, t);
        assert s[1..][4..] == s[5..];
        assert w[5..] == w[1..][4..];
        assert w[1..][4..] == Redirected(s[5..], FILES_LINK);
      } else {
        TwoPassesAreIdeal(s[1..]);
        assert w[1..] == Redirected(s[1..], FILES_LINK);
      }
    }
  }

  lemma VideosPrefix(s: string)
    ensures VIDEOS_LINK <= s <==> VIDEOS_LINK <= Redirected(s, FILES_LINK)
  {
    LinkShapes();
    if VIDEOS_LINK <= Redirected(s, FILES_LINK) {
      RedirectedPrefix(s, FILES_LINK, VIDEOS_LINK);
    }
    if VIDEOS_LINK <= s {
      assert s[9] == VIDEOS_LINK[9];
      var t := VIDEOS_LINK[1..];
      forall i | 0 <= i < |t| - 1 ensures SafeAt(t, i) { assert t[i] == VIDEOS_LINK[i + 1]; }
      assert t <= s[1..];
      RedirectedKeeps(s[1..], FILES_LINK, t);
      assert Redirected(s, FILES_LINK) == ['/'] + Redirected(s[1..], FILES_LINK);
    }
  }

  // ----- when one call misses a link -----

  function Count(s: string, link: string): nat {
    if s == "" then 0 else (if link <= s then 1 else 0) + Count(s[1..], link)
  }

  lemma {:induction false} CountSkips(s: string, link: string, k: nat)
    requires Shape(link) && 1 <= k <= |s|
    requires forall i :: 1 <= i < k ==> SafeAt(s, i)
    ensures Count(s[1..], link) == Count(s[k..], link)
  {
    if k > 1 {
      CountSkips(s, link, k - 1);
      assert SafeAt(s, k - 1);
      assert s[k - 1..][1..] == s[k..];
      assert s[k - 1..][0] == s[k - 1];
      if k < |s| { assert s[k - 1..][1] == s[k]; }
    }
  }

  lemma {:induction false} RedirectedLength(s: string, link: string)
    requires Shape(link)
    ensures |Redirected(s, link)| == |s| + 10 * Count(s, link)
  {
    if s != "" {
      if link <= s {
        CountSkips(s, link, 5);
        RedirectedLength(s[5..], link);
      } else {
        RedirectedLength(s[1..], link);
      }
    }
  }

  lemma {:induction false} IdealLength(s: string)
    ensures |Ideal(s)| == |s| + 10 * (Count(s, FILES_LINK) + Count(s, VIDEOS_LINK))
  {
    LinkShapes();
    if s != "" {
      if AtLink(s) {
        assert s[9] == FILES_LINK[9] || s[9] == VIDEOS_LINK[9];
        CountSkips(s, FILES_LINK, 5);
        CountSkips(s, VIDEOS_LINK, 5);
        IdealLength(s[5..]);
      } else {
        IdealLength(s[1..]);
      }
    }
  }

  /** The first `ReplaceAll` pass, under the shorter name the next lemmas use. */
  function FilesPass(s: string): string { ReplaceAll(s, FILES_LINK, FILES_TO) }

  lemma NotRedirected(t: string, w: string)
    requires NoSlashA(t) && |t| > 1 && t <= w
    ensures w[0] != '/' || w[1] != 'a'
  {
    assert NoSlashAAt(t, 0) && t[0] == w[0] && t[1] == w[1];
  }

  lemma {:induction false} FilesPassPrefix(s: string, t: string)
    requires NoSlashA(t) && t <= FilesPass(s)
    ensures t <= s
    decreases |s|
  {
    LinkShapes();
    if FILES_LINK <= s {
      assert FilesPass(s)[0] == '/' == s[0] && FilesPass(s)[1] == 'a';
      if |t| > 1 { NotRedirected(t, FilesPass(s)); }
    } else if t != "" {
      assert t == [t[0]] + t[1..];
      forall i | 0 <= i < |t[1..]| - 1 ensures NoSlashAAt(t[1..], i) { assert NoSlashAAt(t, i + 1); }
      FilesPassPrefix(s[1..], t[1..]);
    }
  }

  lemma {:induction false} FilesPassKeeps(s: string, t: string)
    requires t <= s && t != "" && forall i :: 0 <= i < |t| - 1 ==> SafeAt(t, i)
    ensures t <= FilesPass(s) && FilesPass(s)[|t| - 1..] == FilesPass(s[|t| - 1..])
  {
    LinkShapes();
    if |t| == 1 {
      assert FILES_LINK <= s ==> FilesPass(s)[0] == '/';
    } else {
      assert SafeAt(t, 0);
      assert s == t + s[|t|..];
      NoLinkHere(t, s[|t|..], FILES_LINK);
      forall i | 0 <= i < |t[1..]| - 1 ensures SafeAt(t[1..], i) { assert SafeAt(t, i + 1); }
      FilesPassKeeps(s[1..], t[1..]);
      assert t == [t[0]] + t[1..];
      assert s[1..][|t[1..]| - 1..] == s[|t| - 1..];
    }
  }

  lemma FilesPassVideos(s: string)
    ensures VIDEOS_LINK <= s <==> VIDEOS_LINK <= FilesPass(s)
    ensures VIDEOS_LINK <= s ==> FilesPass(s)[15..] == FilesPass(s[15..])
  {
    LinkShapes();
    if VIDEOS_LINK <= FilesPass(s) {
      FilesPassPrefix(s, VIDEOS_LINK);
    }
    if VIDEOS_LINK <= s {
      assert s[9] == VIDEOS_LINK[9];
      var t := VIDEOS_LINK[1..];
      forall i | 0 <= i < |t| - 1 ensures SafeAt(t, i) { assert t[i] == VIDEOS_LINK[i + 1]; }
      assert t <= s[1..];
      FilesPassKeeps(s[1..], t);
      assert FilesPass(s) == ['/'] + FilesPass(s[1..]);
      assert s[1..][14..] == s[15..];
      assert FilesPass(s)[15..] == FilesPass(s[1..])[14..];
    }
  }

  /** What the files pass makes of a files link, seen from the link's last slash. */
  lemma FilesPassAtLink(s: string)
    requires FILES_LINK <= s
    ensures FilesPass(s) == FILES_TO[..24] + (['/'] + FilesPass(s[15..]))
    ensures s[14..] == ['/'] + s[15..]
    ensures !(FILES_LINK <= s[14..]) ==> FilesPass(s[14..]) == ['/'] + FilesPass(s[15..])
    ensures FILES_LINK <= s[14..] ==> !(VIDEOS_LINK <= s[14..]) && !(VIDEOS_LINK <= ['/'] + FilesPass(s[15..]))
  {
    LinkShapes();
    assert FILES_TO == FILES_TO[..24] + ['/'];
    assert s[14..][1..] == s[15..];
    if FILES_LINK <= s[14..] {
      assert s[14..][9] == FILES_LINK[9];
      if VIDEOS_LINK <= ['/'] + FilesPass(s[15..]) {
        var t := VIDEOS_LINK[1..];
        assert t <= (['/'] + FilesPass(s[15..]))[1..] == FilesPass(s[15..]);
        forall i | 0 <= i < |t| - 1 ensures NoSlashAAt(t, i) { assert NoSlashAAt(VIDEOS_LINK, i + 1); }
        assert s[15..][8] == s[14..][9];
        FilesPassPrefix(s[15..], t);
      }
    }
  }

  /** No videos link starts inside the first 24 bytes of what a files link becomes. */
  lemma NoVideosInFilesTo(y: string, i: nat)
    requires y != "" && y[0] == '/' && i < 24
    ensures !(VIDEOS_LINK <= FILES_TO[i..24] + y)
  {
    LinkShapes();
    var z := FILES_TO[i..24] + y;
    assert z[0] == FILES_TO[i] && z[1] == FILES_TO[i + 1];
    if i == 4 {
      assert z[6] == FILES_TO[10] == 't' && VIDEOS_LINK[6] == 'v';
    } else {
      FilesToSlashes(i);
    }
  }

  lemma FilesToSlashes(i: nat)
    requires i < 24 && i != 4
    ensures FILES_TO[i] != '/' || FILES_TO[i + 1] != 'g'
  {
  }

  lemma {:induction false} NotInFilesTo(y: string, i: nat)
    requires y != "" && y[0] == '/' && i <= 24
    ensures Count(FILES_TO[i..24] + y, VIDEOS_LINK) == Count(y, VIDEOS_LINK)
    ensures Overlap(FILES_TO[i..24] + y, VIDEOS_LINK) ==> Overlap(y, VIDEOS_LINK)
    decreases 24 - i
  {
    LinkShapes();
    var z := FILES_TO[i..24] + y;
    if i == 24 {
      assert z == y;
    } else {
      NoVideosInFilesTo(y, i);
      NotInFilesTo(y, i + 1);
      assert z[1..] == FILES_TO[i + 1..24] + y;
      assert VIDEOS_LINK <= VIDEOS_LINK + VIDEOS_LINK[1..];
    }
  }

  lemma NoLinkInside(s: string)
    requires FILES_LINK <= s
    ensures |s| >= 15 && forall i :: 1 <= i < 14 ==> s[i] != '/' || s[i + 1] != 'g'
  {
    LinkShapes();
    assert s[9] == FILES_LINK[9];
    forall i | 1 <= i < 14 ensures s[i] != '/' || s[i + 1] != 'g' {
      assert s[i] == FILES_LINK[i] && s[i + 1] == FILES_LINK[i + 1];
    }
  }

  lemma {:induction false} FilesPassCount(s: string)
    ensures Count(FilesPass(s), VIDEOS_LINK) == Count(s, VIDEOS_LINK)
    decreases |s|
  {
    LinkShapes();
    if s == "" {
    } else if FILES_LINK <= s {
      var v := s[14..];
      FilesPassAtLink(s);
      NotInFilesTo(['/'] + FilesPass(s[15..]), 0);
      NoLinkInside(s);
      CountSkips(s, VIDEOS_LINK, 14);
      assert v[1..] == s[15..];
      if FILES_LINK <= v {
        FilesPassCount(s[15..]);
        var w := ['/'] + FilesPass(s[15..]);
        assert w[1..] == FilesPass(s[15..]);
      } else {
        FilesPassCount(v);
      }
    } else {
      FilesPassVideos(s);
      FilesPassCount(s[1..]);
      assert FilesPass(s)[1..] == FilesPass(s[1..]);
    }
  }

  lemma {:induction false} OverlapInFront(a: string, s: string, link: string)
    requires link != "" && Overlap(s, link)
    ensures Overlap(a + s, link)
  {
    if a == "" {
      assert a + s == s;
    } else {
      OverlapInFront(a[1..], s, link);
      assert (a + s)[1..] == a[1..] + s;
    }
  }

  lemma {:induction false} VideosOverlapBehind(s: string, k: nat)
    requires FILES_LINK <= s && 1 <= k <= 14
    ensures Overlap(s[1..], VIDEOS_LINK) <==> Overlap(s[k..], VIDEOS_LINK)
  {
    LinkShapes();
    if k > 1 {
      VideosOverlapBehind(s, k - 1);
      var v, vv := s[k - 1..], VIDEOS_LINK + VIDEOS_LINK[1..];
      assert v[1..] == s[k..];
      assert v[0] == FILES_LINK[k - 1] && v[1] == FILES_LINK[k];
      assert vv[0] == '/' && vv[1] == 'g';
    }
  }

  /** The files pass keeps an overlap of two videos links. */
  lemma {:induction false} FilesPassOverlap(s: string)
    requires Overlap(s, VIDEOS_LINK)
    ensures Overlap(FilesPass(s), VIDEOS_LINK)
    decreases |s|
  {
    LinkShapes();
    if FILES_LINK <= s {
      var v := s[14..];
      FilesPassAtLink(s);
      VideosOverlapBehind(s, 14);
      assert VIDEOS_LINK <= VIDEOS_LINK + VIDEOS_LINK[1..];
      assert s[9] == FILES_LINK[9];
      assert v[1..] == s[15..];
      if FILES_LINK <= v {
        FilesPassOverlap(s[15..]);
        OverlapInFront(['/'], FilesPass(s[15..]), VIDEOS_LINK);
      } else {
        FilesPassOverlap(v);
      }
      OverlapInFront(FILES_TO[..24], ['/'] + FilesPass(s[15..]), VIDEOS_LINK);
    } else if VIDEOS_LINK + VIDEOS_LINK[1..] <= s {
      assert VIDEOS_LINK <= VIDEOS_LINK + VIDEOS_LINK[1..] <= s;
      SharedSlash(s, VIDEOS_LINK);
      FilesPassVideos(s);
      FilesPassVideos(s[15..]);
      SharedSlash(FilesPass(s), VIDEOS_LINK);
    } else {
      FilesPassOverlap(s[1..]);
      assert FilesPass(s)[1..] == FilesPass(s[1..]);
    }
  }

  /** One call redirects every link of its input exactly when no link is directly followed by the
      rest of a link of the same kind. */
  lemma OneCallIsIdeal(s: string)
    ensures ReplaceBoth(s) == Ideal(s) <==> !Chained(s)
  {
    LinkShapes();
    var w := FilesPass(s);
    ReplaceAllIsRedirected(s, FILES_LINK);
    ReplaceAllIsRedirected(w, VIDEOS_LINK);
    TwoPassesAreIdeal(s);
    RedirectedLength(s, FILES_LINK);
    RedirectedLength(w, VIDEOS_LINK);
    FilesPassCount(s);
    IdealLength(s);
    if Overlap(s, VIDEOS_LINK) { FilesPassOverlap(s); }
    if !Chained(s) && Overlap(w, VIDEOS_LINK) {
      FilesPassNoOverlap(s);
    }
  }

  /** The converse of `FilesPassOverlap`, where no files links overlap. */
  lemma {:induction false} FilesPassNoOverlap(s: string)
    requires !Overlap(s, FILES_LINK) && Overlap(FilesPass(s), VIDEOS_LINK)
    ensures Overlap(s, VIDEOS_LINK)
    decreases |s|
  {
    LinkShapes();
    var both := VIDEOS_LINK + VIDEOS_LINK[1..];
    if FILES_LINK <= s {
      var v, y := s[14..], ['/'] + FilesPass(s[15..]);
      FilesPassAtLink(s);
      SharedSlash(s, FILES_LINK);
      NotInFilesTo(y, 0);
      OverlapSkips(s, FILES_LINK, 14);
      FilesPassNoOverlap(v);
      assert s == s[..14] + v;
      OverlapInFront(s[..14], v, VIDEOS_LINK);
    } else {
      FilesPassVideos(s);
      if both <= FilesPass(s) {
        assert VIDEOS_LINK <= both <= FilesPass(s);
        SharedSlash(FilesPass(s), VIDEOS_LINK);
        FilesPassVideos(s[15..]);
        SharedSlash(s, VIDEOS_LINK);
      } else {
        assert FilesPass(s)[1..] == FilesPass(s[1..]);
        FilesPassNoOverlap(s[1..]);
      }
    }
  }

  // ----- the held suffix -----

  /** Bytes that the next write could still complete to a link. */
  predicate LinkStart(s: string) { s < FILES_LINK || s < VIDEOS_LINK }

  /** The longest suffix that could become a link. */
  function Hold(s: string): string { if LinkStart(s) then s else Hold(s[1..]) }

  lemma SuffixOfTail(s: string, n: nat)
    requires n < |s|
    ensures Suffix(s, n) == Suffix(s[1..], n)
  {
  }

  lemma {:induction false} HoldIsSuffix(s: string)
    ensures |Hold(s)| <= |s| && LinkStart(Hold(s)) && Suffix(s, |Hold(s)|) == Hold(s)
  {
    if LinkStart(s) {
    } else {
      HoldIsSuffix(s[1..]);
      SuffixOfTail(s, |Hold(s)|);
    }
  }

  lemma {:induction false} HoldIsLongest(s: string, n: nat)
    requires n <= |s| && LinkStart(Suffix(s, n))
    ensures n <= |Hold(s)|
  {
    if n == |s| {
      assert Suffix(s, n) == s;
    } else {
      SuffixOfTail(s, n);
      if !LinkStart(s) { HoldIsLongest(s[1..], n); }
    }
  }

  lemma LinkStartIsShort(s: string)
    requires LinkStart(s)
    ensures |s| < 16
  {
  }

  lemma LinkStartFacts(s: string, link: string)
    requires LinkStart(s) && (link == FILES_LINK || link == VIDEOS_LINK)
    ensures |s| < 16 && !(link <= s)
    ensures s != "" ==> s[0] == '/'
    ensures forall i :: 1 <= i < |s| - 1 ==> SafeAt(s, i)
    ensures NoSlashA(s)
  {
    LinkShapes();
  }

  lemma {:induction false} IdealOfPlain(s: string)
    requires forall i :: 0 <= i < |s| - 1 ==> SafeAt(s, i)
    ensures Ideal(s) == s
  {
    LinkShapes();
    if s != "" {
      if |s| > 1 { assert SafeAt(s, 0); }
      forall i | 0 <= i < |s[1..]| - 1 ensures SafeAt(s[1..], i) { assert SafeAt(s, i + 1); }
      IdealOfPlain(s[1..]);
      assert s == [s[0]] + s[1..];
    }
  }

  lemma IdealOfLinkStart(s: string)
    requires LinkStart(s)
    ensures Ideal(s) == s
  {
    LinkStartFacts(s, FILES_LINK);
    LinkStartFacts(s, VIDEOS_LINK);
    if s != "" {
      forall i | 0 <= i < |s[1..]| - 1 ensures SafeAt(s[1..], i) { assert SafeAt(s, i + 1); }
      IdealOfPlain(s[1..]);
      assert s == [s[0]] + s[1..];
    }
  }

  lemma {:induction false} IdealGrows(s: string)
    ensures |Ideal(s)| >= |s|
  {
    if s != "" {
      IdealGrows(if AtLink(s) then s[5..] else s[1..]);
    }
  }

  lemma {:induction false} IdealPrefix(s: string, t: string)
    requires NoSlashA(t) && t <= Ideal(s)
    ensures t <= s
  {
    if t != "" {
      if AtLink(s) {
        assert Ideal(s)[0] == '/' == s[0] && Ideal(s)[1] == 'a';
        if |t| > 1 { NotRedirected(t, Ideal(s)); }
      } else {
        assert t == [t[0]] + t[1..];
        forall i | 0 <= i < |t[1..]| - 1 ensures NoSlashAAt(t[1..], i) { assert NoSlashAAt(t, i + 1); }
        IdealPrefix(s[1..], t[1..]);
      }
    }
  }

  /** At a link, the longest hold starts no earlier than five bytes on. */
  lemma HoldAfterLink(s: string)
    requires AtLink(s)
    ensures Hold(s) == Hold(s[5..])
  {
    LinkShapes();
    assert !LinkStart(s);
    assert s[1..][0] != '/' && s[2..][0] != '/' && s[3..][0] != '/' && s[4..][0] != '/';
    assert s[1..][1..] == s[2..] && s[2..][1..] == s[3..] && s[3..][1..] == s[4..] && s[4..][1..] == s[5..];
    NoSlashNoStart(s[1..]);
    NoSlashNoStart(s[2..]);
    NoSlashNoStart(s[3..]);
    NoSlashNoStart(s[4..]);
  }

  lemma NoSlashNoStart(s: string)
    requires s != "" && s[0] != '/'
    ensures Hold(s) == Hold(s[1..])
  {
    LinkShapes();
  }

  lemma IdealBehindLink(s: string)
    requires AtLink(s)
    ensures |Ideal(s[5..])| >= 10 && Ideal(s[5..])[..3] == "/v1"
  {
    LinkShapes();
    var a, b, c := s[5..], s[6..], s[7..];
    assert a[1..] == b && b[1..] == c && a[0] == '/' && a[1] == 'v' && b[0] == 'v' && c[0] == '1';
    assert Ideal(c) == ['1'] + Ideal(c[1..]);
    assert Ideal(b) == ['v'] + Ideal(c);
    assert Ideal(a) == ['/'] + Ideal(b) by { assert a[1] != FILES_LINK[1] && a[1] != VIDEOS_LINK[1]; }
    IdealGrows(a);
  }

  /** No suffix that reaches into `/api/grok/tools` could become a link. */
  lemma NoLinkStartInRedirect(y: string, i: nat)
    requires |y| >= 10 && y[..3] == "/v1" && i < 15
    ensures !LinkStart(REDIRECT[i..] + y)
  {
    var t, k := REDIRECT[i..] + y, 15 - i;
    assert t[k] == y[..3][0] && t[k + 1] == y[..3][1] && t[k + 2] == y[..3][2];
    assert t[k - 1] == REDIRECT[14] == 's';
    if LinkStart(t) { LinkStartV1(t, k); }
  }

  lemma {:induction false} HoldBehindRedirect(y: string, i: nat)
    requires |y| >= 10 && y[..3] == "/v1" && i <= 15
    ensures Hold(REDIRECT[i..] + y) == Hold(y)
    decreases 15 - i
  {
    var z := REDIRECT[i..] + y;
    if i == 15 {
      assert z == y;
    } else {
      NoLinkStartInRedirect(y, i);
      assert z[1..] == REDIRECT[i + 1..] + y;
      HoldBehindRedirect(y, i + 1);
    }
  }

  lemma LinkStartV1(t: string, k: nat)
    requires LinkStart(t) && 1 <= k && k + 2 < |t| && t[k] == '/' && t[k + 1] == 'v' && t[k + 2] == '1'
    ensures t[k - 1] == 'k'
  {
    LinkShapes();
  }

  /** Redirecting changes nothing about what has to be held back. */
  lemma {:induction false} HoldOfIdeal(s: string)
    ensures Hold(Ideal(s)) == Hold(s)
  {
    if LinkStart(s) {
      IdealOfLinkStart(s);
    } else if AtLink(s) {
      HoldAfterLink(s);
      IdealBehindLink(s);
      HoldBehindRedirect(Ideal(s[5..]), 0);
      assert REDIRECT[0..] == REDIRECT;
      HoldOfIdeal(s[5..]);
    } else {
      HoldOfIdeal(s[1..]);
      IdealGrows(s);
      if LinkStart(Ideal(s)) {
        LinkStartFacts(Ideal(s), FILES_LINK);
        IdealPrefix(s, Ideal(s));
      }
      assert Ideal(s)[1..] == Ideal(s[1..]);
    }
  }

  /** What is certain of the output once `s` has been written: everything but the held bytes. */
  function Sent(s: string): string {
    if LinkStart(s) then ""
    else if AtLink(s) then REDIRECT + Sent(s[5..])
    else [s[0]] + Sent(s[1..])
  }

  lemma {:induction false} IdealIsSentAndHold(s: string)
    ensures Ideal(s) == Sent(s) + Hold(s)
  {
    if LinkStart(s) {
      IdealOfLinkStart(s);
    } else if AtLink(s) {
      HoldAfterLink(s);
      IdealIsSentAndHold(s[5..]);
    } else {
      IdealIsSentAndHold(s[1..]);
    }
  }

  /** The cut lemma: bytes that follow `s` only meet the held suffix of `s`. */
  lemma {:induction false} Cut(s: string, p: string)
    ensures Sent(s + p) == Sent(s) + Sent(Hold(s) + p)
    ensures Hold(s + p) == Hold(Hold(s) + p)
    decreases |s|
  {
    if !LinkStart(s) {
      NotLinkStart(s, p);
      SameAhead(s, p);
      if AtLink(s) { CutAtLink(s, p); } else { CutAtByte(s, p); }
    }
  }

  lemma SentAtLink(s: string)
    requires AtLink(s)
    ensures |s| >= 15 && Sent(s) == REDIRECT + Sent(s[5..]) && Hold(s) == Hold(s[5..])
  {
    LinkShapes();
    HoldAfterLink(s);
  }

  lemma SentAtByte(s: string)
    requires s != "" && !AtLink(s) && !LinkStart(s)
    ensures Sent(s) == [s[0]] + Sent(s[1..]) && Hold(s) == Hold(s[1..])
  {
  }

  lemma DropOfSum(s: string, p: string, n: nat)
    requires n <= |s|
    ensures (s + p)[n..] == s[n..] + p && (n > 0 ==> (s + p)[0] == s[0])
  {
  }

  lemma {:induction false} CutAtLink(s: string, p: string)
    requires AtLink(s) && AtLink(s + p)
    ensures Sent(s + p) == Sent(s) + Sent(Hold(s) + p)
    ensures Hold(s + p) == Hold(Hold(s) + p)
    decreases |s|, 0
  {
    SentAtLink(s);
    SentAtLink(s + p);
    DropOfSum(s, p, 5);
    Cut(s[5..], p);
    Assoc(REDIRECT, Sent(s[5..]), Sent(Hold(s) + p));
  }

  lemma {:induction false} CutAtByte(s: string, p: string)
    requires !AtLink(s) && !AtLink(s + p) && !LinkStart(s) && !LinkStart(s + p) && s != ""
    ensures Sent(s + p) == Sent(s) + Sent(Hold(s) + p)
    ensures Hold(s + p) == Hold(Hold(s) + p)
    decreases |s|, 0
  {
    SentAtByte(s);
    SentAtByte(s + p);
    DropOfSum(s, p, 1);
    Cut(s[1..], p);
    Assoc([s[0]], Sent(s[1..]), Sent(Hold(s) + p));
  }

  lemma NotLinkStart(s: string, p: string)
    requires !LinkStart(s)
    ensures !LinkStart(s + p)
  {
    assert s <= s + p;
  }

  lemma SameAhead(s: string, p: string)
    requires !LinkStart(s)
    ensures AtLink(s + p) == AtLink(s)
  {
    assert s <= s + p;
    if FILES_LINK <= s + p { PrefixAcross(s, p, FILES_LINK); }
    if VIDEOS_LINK <= s + p { PrefixAcross(s, p, VIDEOS_LINK); }
  }

  // ----- the streaming writer -----

  datatype Stream = Stream(sent: string, pending: string)

  /** One `Write` of a response that is rewritten. */
  function AfterWrite(st: Stream, p: string): Stream {
    var data := ReplaceBoth(st.pending + p);
    HoldIsSuffix(data);
    Stream(st.sent + data[..|data| - |Hold(data)|], Hold(data))
  }

  function AfterWrites(st: Stream, writes: seq<string>): Stream
    decreases |writes|
  {
    if writes == [] then st else AfterWrites(AfterWrite(st, writes[0]), writes[1..])
  }

  function Join(writes: seq<string>): string {
    if writes == [] then "" else writes[0] + Join(writes[1..])
  }

  /** What the client gets when the handler makes these writes and returns. */
  function Response(writes: seq<string>): string {
    var end := AfterWrites(Stream("", ""), writes);
    end.sent + end.pending
  }

  lemma OverlapInside(a: string, b: string, link: string)
    requires link != "" && !Overlap(a + b, link)
    ensures !Overlap(a, link) && !Overlap(b, link)
  {
    if Overlap(b, link) { OverlapInFront(a, b, link); }
    if Overlap(a, link) { OverlapExtends(a, b, link); }
  }

  lemma {:induction false} OverlapExtends(a: string, b: string, link: string)
    requires link != "" && Overlap(a, link)
    ensures Overlap(a + b, link)
  {
    assert (a + b)[1..] == a[1..] + b;
    assert a <= a + b;
    if !(link + link[1..] <= a) { OverlapExtends(a[1..], b, link); }
  }

  lemma WriteIsIdeal(st: Stream, p: string)
    requires !Chained(st.pending + p)
    ensures AfterWrite(st, p) == Stream(st.sent + Sent(st.pending + p), Hold(st.pending + p))
  {
    OneCallIsIdeal(st.pending + p);
    HoldOfIdeal(st.pending + p);
    IdealIsSentAndHold(st.pending + p);
  }

  /** One write continues the stream of an ideal rewriter. */
  lemma WriteStep(s: string, p: string)
    requires !Chained(Hold(s) + p)
    ensures AfterWrite(Stream(Sent(s), Hold(s)), p) == Stream(Sent(s + p), Hold(s + p))
  {
    WriteIsIdeal(Stream(Sent(s), Hold(s)), p);
    Cut(s, p);
  }

  lemma ChainedInside(s: string, p: string, rest: string)
    requires !Chained(s + (p + rest))
    ensures !Chained(Hold(s) + p)
  {
    HoldIsSuffix(s);
    var a := s[..|s| - |Hold(s)|];
    assert s + (p + rest) == a + ((Hold(s) + p) + rest);
    OverlapInside(a, (Hold(s) + p) + rest, FILES_LINK);
    OverlapInside(a, (Hold(s) + p) + rest, VIDEOS_LINK);
    OverlapInside(Hold(s) + p, rest, FILES_LINK);
    OverlapInside(Hold(s) + p, rest, VIDEOS_LINK);
  }

  lemma ByteIsNotChained(s: string, p: string)
    requires |p| <= 1
    ensures !Chained(Hold(s) + p)
  {
    HoldIsSuffix(s);
    LinkStartIsShort(Hold(s));
    LinkShapes();
    if Overlap(Hold(s) + p, FILES_LINK) { OverlapIsLong(Hold(s) + p, FILES_LINK); }
    if Overlap(Hold(s) + p, VIDEOS_LINK) { OverlapIsLong(Hold(s) + p, VIDEOS_LINK); }
  }

  lemma {:induction false} WritesAreIdeal(s: string, writes: seq<string>)
    requires !Chained(s + Join(writes)) || forall i :: 0 <= i < |writes| ==> |writes[i]| <= 1
    ensures AfterWrites(Stream(Sent(s), Hold(s)), writes)
         == Stream(Sent(s + Join(writes)), Hold(s + Join(writes)))
    decreases |writes|
  {
    if writes == [] {
      assert s + "" == s;
    } else {
      var p := writes[0];
      assert s + Join(writes) == (s + p) + Join(writes[1..]);
      if !Chained(s + Join(writes)) {
        ChainedInside(s, p, Join(writes[1..]));
      } else {
        ByteIsNotChained(s, p);
      }
      WriteStep(s, p);
      WritesAreIdeal(s + p, writes[1..]);
    }
  }

  lemma {:induction false} OverlapIsLong(s: string, link: string)
    requires Shape(link) && Overlap(s, link)
    ensures |s| >= 29
  {
    if !(link + link[1..] <= s) { OverlapIsLong(s[1..], link); }
  }

  lemma StartOfStream()
    ensures Sent("") == "" && Hold("") == ""
  {
  }

  /** Without chained links, every cut of the response is rewritten as its links demand. */
  lemma ResponseIsIdeal(writes: seq<string>)
    requires !Chained(Join(writes))
    ensures Response(writes) == Ideal(Join(writes)) == ReplaceBoth(Join(writes))
  {
    StartOfStream();
    assert "" + Join(writes) == Join(writes);
    WritesAreIdeal("", writes);
    IdealIsSentAndHold(Join(writes));
    OneCallIsIdeal(Join(writes));
  }

  function Bytewise(s: string): (writes: seq<string>)
    ensures |writes| == |s| && forall i :: 0 <= i < |writes| ==> |writes[i]| == 1
  {
    if s == "" then [] else [[s[0]]] + Bytewise(s[1..])
  }

  lemma {:induction false} BytewiseJoins(s: string)
    ensures Join(Bytewise(s)) == s
  {
    if s != "" {
      BytewiseJoins(s[1..]);
      assert Bytewise(s)[1..] == Bytewise(s[1..]);
    }
  }

  /** How a response is cut into writes is invisible to the client exactly when no link in it is
      directly followed by the rest of a link of the same kind: written byte by byte every link is
      redirected, written at once a chained link is missed. */
  lemma CutIsInvisibleIffNotChained(s: string)
    ensures (forall writes :: Join(writes) == s ==> Response(writes) == ReplaceBoth(s)) <==> !Chained(s)
  {
    if !Chained(s) {
      forall writes | Join(writes) == s ensures Response(writes) == ReplaceBoth(s) {
        ResponseIsIdeal(writes);
      }
    } else {
      StartOfStream();
      BytewiseJoins(s);
      assert "" + s == s;
      WritesAreIdeal("", Bytewise(s));
      IdealIsSentAndHold(s);
      assert Response(Bytewise(s)) == Ideal(s);
      OneCallIsIdeal(s);
    }
  }

  /** Two links of one kind that share a slash are such a text. */
  lemma SharedSlashIsSeen(link: string)
    requires link == FILES_LINK || link == VIDEOS_LINK
    ensures var s := link + link[1..];
      Chained(s) && exists writes :: Join(writes) == s && Response(writes) != ReplaceBoth(s)
  {
    CutIsInvisibleIffNotChained(link + link[1..]);
  }

  /** Which responses are rewritten: somewhere in the content type four characters spell `json`, or its
      first five spell `text/`, in any case. */
  ghost predicate Textual(contentType: string) {
    (exists i :: 0 <= i <= |contentType| - 4 && JsonAt(contentType, i)) || TextAhead(contentType)
  }

  predicate JsonAt(s: string, i: nat)
    requires i + 4 <= |s|
  {
    s[i] in {'j', 'J'} && s[i + 1] in {'s', 'S'} && s[i + 2] in {'o', 'O'} && s[i + 3] in {'n', 'N'}
  }

  lemma LowerAt(s: string, i: nat)
    requires i + 4 <= |s|
    ensures JsonAt(s, i) <==> "json" <= ToLower(s)[i..]
  {
    var l := ToLower(s);
    assert l[i..][0] == l[i] && l[i..][1] == l[i + 1] && l[i..][2] == l[i + 2] && l[i..][3] == l[i + 3];
  }

  predicate TextAhead(s: string) {
    && |s| >= 5 && s[0] in {'t', 'T'} && s[1] in {'e', 'E'} && s[2] in {'x', 'X'} && s[3] in {'t', 'T'} && s[4] == '/'
  }

  lemma LowerAhead(s: string)
    ensures TextAhead(s) <==> "text/" <= ToLower(s)
  {
    var l := ToLower(s);
    if |s| >= 5 { assert l[..5][0] == l[0] && l[..5][1] == l[1] && l[..5][2] == l[2] && l[..5][3] == l[3] && l[..5][4] == l[4]; }
  }

  lemma LowerIsTextual(contentType: string)
    ensures Textual(contentType) <==> Contains(ToLower(contentType), "json") || "text/" <= ToLower(contentType)
  {
    var l := ToLower(contentType);
    LowerAhead(contentType);
    if Contains(l, "json") {
      var i := Index(l, "json").value;
      assert i + |"json"| <= |l|;
      LowerAt(contentType, i);
    }
    forall i | 0 <= i <= |contentType| - 4 && JsonAt(contentType, i) ensures Contains(l, "json") {
      LowerAt(contentType, i);
      IndexIsFirst(l, "json", i);
    }
  }

  class ToolsLinkWriter {
    const contentType: string
    /** What the wrapped response writer has been given. */
    var body: string
    var decided: bool
    var rewrite: bool
    var pending: string

    constructor (contentType: string)
      ensures this.contentType == contentType && body == "" && pending == "" && !decided
    {
      this.contentType := contentType;
      body, pending, decided, rewrite := "", "", false, false;
    }

    /** The decision is taken once, by the first write or header. */
    ghost predicate Rewrites()
      reads this
    {
      if decided then rewrite else Textual(contentType)
    }

    method Decide()
      modifies this`decided, this`rewrite
      ensures decided && rewrite == old(Rewrites())
    {
      if decided {
        return;
      }
      decided := true;
      var lower := ToLower(contentType);
      LowerIsTextual(contentType);
      rewrite := Contains(lower, "json") || "text/" <= lower;
    }

    /** `accepted` is whether the wrapped writer takes the bytes. */
    method Write(p: string, accepted: bool) returns (n: nat, failed: bool)
      modifies this
      ensures decided && rewrite == old(Rewrites())
      ensures failed == !accepted && n == if accepted then |p| else 0
      ensures !rewrite ==> pending == old(pending) && body == old(body) + if accepted then p else ""
      ensures rewrite ==>
        var st := AfterWrite(Stream(old(body), old(pending)), p);
        pending == st.pending && body == if accepted then st.sent else old(body)
    {
      Decide();
      n, failed := 0, true;
      if !rewrite {
        if accepted {
          body, n, failed := body + p, |p|, false;
        }
        return;
      }
      var data := pending + p;
      data := ReplaceAll(data, FILES_LINK, FILES_TO);
      data := ReplaceAll(data, VIDEOS_LINK, VIDEOS_TO);
      var hold := LongestHold(data);
      pending := data[|data| - hold..];
      if accepted {
        body, n, failed := body + data[..|data| - hold], |p|, false;
      }
    }

    method FlushPending()
      modifies this`body, this`pending
      ensures body == old(body + pending) && pending == ""
    {
      if |pending| > 0 {
        body := body + pending;
        pending := "";
      }
    }

    /** A handler behind `withToolsLinks` that makes these writes, all accepted. */
    method Serve(writes: seq<string>)
      requires !decided && body == "" && pending == ""
      modifies this
      ensures !Textual(contentType) ==> body == Join(writes)
      ensures Textual(contentType) ==> body == Response(writes)
      ensures Textual(contentType) && !Chained(Join(writes)) ==> body == Ideal(Join(writes))
    {
      var i := 0;
      while i < |writes|
        invariant 0 <= i <= |writes|
        invariant Rewrites() == Textual(contentType)
        invariant !Textual(contentType) ==> pending == "" && body + Join(writes[i..]) == Join(writes)
        invariant Textual(contentType) ==>
          AfterWrites(Stream(body, pending), writes[i..]) == AfterWrites(Stream("", ""), writes)
      {
        assert writes[i..][1..] == writes[i + 1..];
        var _, _ := Write(writes[i], true);
        i := i + 1;
      }
      FlushPending();
      if Textual(contentType) && !Chained(Join(writes)) { ResponseIsIdeal(writes); }
    }
  }

  /** The nested search for the held suffix: both rules, longest first. */
  method LongestHold(data: string) returns (hold: nat)
    ensures hold == |Hold(data)| < 16 && hold <= |data| && data[|data| - hold..] == Hold(data)
  {
    hold := LongerHold(data, FILES_LINK, 0);
    hold := LongerHold(data, VIDEOS_LINK, hold);
    HoldIsSuffix(data);
    LinkStartIsShort(Hold(data));
    HoldIsLongest(data, hold);
  }

  /** The longest suffix, longer than `hold`, that is a proper prefix of `from`. */
  method LongerHold(data: string, from: string, hold: nat) returns (longer: nat)
    requires |from| > 0 && hold <= |data|
    ensures hold <= longer <= |data|
    ensures longer == hold || Suffix(data, longer) < from
    ensures forall m :: longer < m <= |data| ==> !(Suffix(data, m) < from)
  {
    longer := hold;
    var n := |from| - 1;
    while n > longer
      invariant n <= |from| - 1 && longer == hold
      invariant forall m :: n < m <= |data| && m > hold ==> !(Suffix(data, m) < from)
    {
      assert n <= |data| ==> (Suffix(data, n) < from <==> Suffix(data, n) == from[..n]);
      if n <= |data| && Suffix(data, n) == from[..n] {
        longer := n;
        return;
      }
      n := n - 1;
    }
  }
}
