/** internal/cline/stream.go: `<think>` blocks inside the answer are told apart from the answer
    while it arrives in arbitrary pieces.

    The reference is `Segments`: the whole content cut at its tags, text first, then reasoning,
    and so on.  `Splitter` is the buffer machine. */
module ThinkSplitter {
  import opened Text

  /** The results hold for any two tags that are not empty. */
  datatype Tags = Tags(open: string, close: string) {
    predicate Ok() { open != "" && close != "" }
  }

  const THINK_TAGS := Tags("<think>", "</think>")

  /** The tag that ends the current kind of content. */
  function Tag(tags: Tags, thinking: bool): string { if thinking then tags.close else tags.open }

  datatype Byte = Byte(reasoning: bool, value: char)

  predicate Has(s: string, tag: string) { tag <= s }

  /** `s` could still become the tag. */
  predicate Starts(s: string, tag: string) { s < tag }

  lemma StartsEarlier(s: string, p: string, tag: string)
    ensures Has(s, tag) ==> Has(s + p, tag)
    ensures Starts(s + p, tag) ==> Starts(s, tag)
    ensures Has(s + p, tag) ==> Has(s, tag) || Starts(s, tag)
  {
    assert s <= s + p;
    if tag <= s + p { PrefixAcross(s, p, tag); }
  }

  function Label(thinking: bool, s: string): seq<Byte> {
    if s == "" then [] else [Byte(thinking, s[0])] + Label(thinking, s[1..])
  }

  lemma {:induction false} LabelConcat(thinking: bool, a: string, b: string)
    ensures Label(thinking, a + b) == Label(thinking, a) + Label(thinking, b)
  {
    if a == "" {
      assert a + b == b;
    } else {
      LabelConcat(thinking, a[1..], b);
      assert (a + b)[1..] == a[1..] + b;
    }
  }

  // ----- the reference -----

  function Segments(tags: Tags, thinking: bool, s: string): (segments: seq<string>)
    requires tags.Ok()
    ensures segments != []
    decreases |s|
  {
    match Index(s, Tag(tags, thinking))
    case None => [s]
    case Some(i) => [s[..i]] + Segments(tags, !thinking, s[i + |Tag(tags, thinking)|..])
  }

  function Rejoin(tags: Tags, thinking: bool, segments: seq<string>): string
    requires segments != []
    decreases |segments|
  {
    if |segments| == 1 then segments[0]
    else segments[0] + Tag(tags, thinking) + Rejoin(tags, !thinking, segments[1..])
  }

  /** Every segment ends at the first tag that can end it. */
  predicate CutAtTags(tags: Tags, thinking: bool, segments: seq<string>)
    requires segments != []
    decreases |segments|
  {
    if |segments| == 1 then
      !Contains(segments[0], Tag(tags, thinking))
    else (
      && Index(segments[0] + Tag(tags, thinking), Tag(tags, thinking)) == Some(|segments[0]|)
      && CutAtTags(tags, !thinking, segments[1..]))
  }

  function Labels(thinking: bool, segments: seq<string>): seq<Byte>
    decreases |segments|
  {
    if segments == [] then [] else Label(thinking, segments[0]) + Labels(!thinking, segments[1..])
  }

  /** A match lies within the first `n` bytes or not, whatever follows them. */
  lemma MatchBeforeRest(a: string, rest: string, tag: string, i: nat)
    requires i + |tag| <= |a|
    ensures tag <= (a + rest)[i..] <==> tag <= a[i..]
  {
    assert (a + rest)[i..] == a[i..] + rest;
    if tag <= a[i..] + rest { PrefixAcross(a[i..], rest, tag); }
  }

  lemma IndexBeforeRest(a: string, tag: string, rest: string)
    requires tag != ""
    ensures Index(a + tag + rest, tag) == Some(|a|) <==> Index(a + tag, tag) == Some(|a|)
  {
    var s := a + tag;
    assert s[|a|..] == tag;
    IndexIsFirst(s, tag, |a|);
    MatchBeforeRest(s, rest, tag, |a|);
    IndexIsFirst(s + rest, tag, |a|);
    var i, j := Index(s, tag).value, Index(s + rest, tag).value;
    MatchBeforeRest(s, rest, tag, i);
    IndexIsFirst(s + rest, tag, i);
    MatchBeforeRest(s, rest, tag, j);
    IndexIsFirst(s, tag, j);
  }

  lemma SegmentsStep(tags: Tags, thinking: bool, a: string, rest: string)
    requires tags.Ok() && Index(a + Tag(tags, thinking) + rest, Tag(tags, thinking)) == Some(|a|)
    ensures Segments(tags, thinking, a + Tag(tags, thinking) + rest)
         == [a] + Segments(tags, !thinking, rest)
  {
    var s := a + Tag(tags, thinking) + rest;
    assert s[..|a|] == a && s[|a| + |Tag(tags, thinking)|..] == rest;
  }

  lemma SplitAtFirst(s: string, tag: string)
    requires Index(s, tag).Some?
    ensures var i := Index(s, tag).value; s == s[..i] + tag + s[i + |tag|..]
  {
    var i := Index(s, tag).value;
    assert s[i..] == tag + s[i..][|tag|..];
  }

  /** The segments are the one way to write the content as segments that end at their tags. */
  lemma {:induction false} SegmentsAreUnique(tags: Tags, thinking: bool, segments: seq<string>)
    requires tags.Ok() && segments != [] && CutAtTags(tags, thinking, segments)
    ensures segments == Segments(tags, thinking, Rejoin(tags, thinking, segments))
    decreases |segments|
  {
    if |segments| > 1 {
      var rest := Rejoin(tags, !thinking, segments[1..]);
      SegmentsAreUnique(tags, !thinking, segments[1..]);
      IndexBeforeRest(segments[0], Tag(tags, thinking), rest);
      SegmentsStep(tags, thinking, segments[0], rest);
      assert segments == [segments[0]] + segments[1..];
    } else {
      assert segments == [segments[0]];
    }
  }

  lemma {:induction false} SegmentsRejoin(tags: Tags, thinking: bool, s: string)
    requires tags.Ok()
    ensures Rejoin(tags, thinking, Segments(tags, thinking, s)) == s
    ensures CutAtTags(tags, thinking, Segments(tags, thinking, s))
    decreases |s|
  {
    var tag := Tag(tags, thinking);
    var found := Index(s, tag);
    if found.Some? {
      var a, rest := s[..found.value], s[found.value + |tag|..];
      SplitAtFirst(s, tag);
      SegmentsRejoin(tags, !thinking, rest);
      SegmentsStep(tags, thinking, a, rest);
      IndexBeforeRest(a, tag, rest);
      var later := Segments(tags, !thinking, rest);
      JoinStep(tags, thinking, a, later);
    }
  }

  lemma JoinStep(tags: Tags, thinking: bool, a: string, later: seq<string>)
    requires later != []
    ensures Rejoin(tags, thinking, [a] + later)
         == a + Tag(tags, thinking) + Rejoin(tags, !thinking, later)
    ensures CutAtTags(tags, thinking, [a] + later)
       <==> Index(a + Tag(tags, thinking), Tag(tags, thinking)) == Some(|a|) && CutAtTags(tags, !thinking, later)
  {
    assert ([a] + later)[1..] == later;
  }

  // ----- the machine on values -----

  datatype Split = Split(bytes: seq<Byte>, thinking: bool, pending: string)

  /** All the output that `s` decides: the bytes up to the first suffix that could still become
      the tag being looked for. */
  function Decided(tags: Tags, thinking: bool, s: string): Split
    requires tags.Ok()
    decreases |s|
  {
    var tag := Tag(tags, thinking);
    if Starts(s, tag) then Split([], thinking, s)
    else if Has(s, tag) then Decided(tags, !thinking, s[|tag|..])
    else var r := Decided(tags, thinking, s[1..]); Split([Byte(thinking, s[0])] + r.bytes, r.thinking, r.pending)
  }

  /** The output when nothing more can come. */
  function Finished(tags: Tags, thinking: bool, s: string): seq<Byte>
    requires tags.Ok()
  {
    var r := Decided(tags, thinking, s);
    r.bytes + Label(r.thinking, r.pending)
  }

  lemma {:induction false} NoTagNoSplit(tags: Tags, thinking: bool, s: string, k: nat)
    requires tags.Ok()
    requires k <= |s| && forall j :: 0 <= j < k ==> NoTagAt(tags, thinking, s, j)
    ensures var r := Decided(tags, thinking, s[k..]);
      Decided(tags, thinking, s) == Split(Label(thinking, s[..k]) + r.bytes, r.thinking, r.pending)
  {
    if k == 0 {
      assert s[0..] == s;
      assert s[..0] == "";
    } else {
      assert NoTagAt(tags, thinking, s, 0) && s[0..] == s;
      forall j | 0 <= j < k - 1 ensures NoTagAt(tags, thinking, s[1..], j) {
        assert NoTagAt(tags, thinking, s, j + 1) && s[1..][j..] == s[j + 1..];
      }
      NoTagNoSplit(tags, thinking, s[1..], k - 1);
      OneByteMore(thinking, s, k, Decided(tags, thinking, s[k..]).bytes);
    }
  }

  lemma OneByteMore(thinking: bool, s: string, k: nat, bytes: seq<Byte>)
    requires 0 < k <= |s|
    ensures s[1..][k - 1..] == s[k..]
    ensures [Byte(thinking, s[0])] + (Label(thinking, s[1..][..k - 1]) + bytes) == Label(thinking, s[..k]) + bytes
  {
    assert s[..k][1..] == s[1..][..k - 1];
    Assoc([Byte(thinking, s[0])], Label(thinking, s[1..][..k - 1]), bytes);
  }

  predicate NoTagAt(tags: Tags, thinking: bool, s: string, j: nat)
    requires j <= |s|
  {
    !Has(s[j..], Tag(tags, thinking)) && !Starts(s[j..], Tag(tags, thinking))
  }

  /** What one turn of the loop does when the tag is found. */
  lemma DecidedAtTag(tags: Tags, thinking: bool, a: string, rest: string)
    requires tags.Ok() && Index(a + Tag(tags, thinking) + rest, Tag(tags, thinking)) == Some(|a|)
    ensures var r := Decided(tags, !thinking, rest);
      Decided(tags, thinking, a + Tag(tags, thinking) + rest)
        == Split(Label(thinking, a) + r.bytes, r.thinking, r.pending)
  {
    var tag := Tag(tags, thinking);
    var s := a + tag + rest;
    forall j | 0 <= j < |a| ensures NoTagAt(tags, thinking, s, j) {
      if Has(s[j..], tag) { IndexIsFirst(s, tag, j); }
    }
    NoTagNoSplit(tags, thinking, s, |a|);
    assert s[|a|..] == tag + rest && s[..|a|] == a;
    assert (tag + rest)[|tag|..] == rest;
  }

  /** The length of the longest suffix that could still become the tag. */
  function Held(tag: string, s: string): (n: nat)
    requires tag != ""
    ensures n <= |s|
  {
    if Starts(s, tag) then |s| else Held(tag, s[1..])
  }

  lemma SuffixOfTail(s: string, n: nat)
    requires n < |s|
    ensures Suffix(s, n) == Suffix(s[1..], n)
  {
  }

  lemma {:induction false} HeldStarts(tag: string, s: string)
    requires tag != ""
    ensures Starts(Suffix(s, Held(tag, s)), tag)
  {
    if !Starts(s, tag) {
      HeldStarts(tag, s[1..]);
      SuffixOfTail(s, Held(tag, s));
    } else {
      assert Suffix(s, |s|) == s;
    }
  }

  lemma {:induction false} HeldIsLongest(tag: string, s: string, n: nat)
    requires tag != "" && n <= |s| && Starts(Suffix(s, n), tag)
    ensures n <= Held(tag, s)
  {
    if !Starts(s, tag) {
      assert Suffix(s, |s|) == s;
      SuffixOfTail(s, n);
      HeldIsLongest(tag, s[1..], n);
    }
  }

  /** What the last turn of the loop does when more may come. */
  lemma {:induction false} DecidedWithoutTag(tags: Tags, thinking: bool, s: string)
    requires tags.Ok() && Index(s, Tag(tags, thinking)).None?
    ensures var n := |s| - Held(Tag(tags, thinking), s);
      Decided(tags, thinking, s) == Split(Label(thinking, s[..n]), thinking, s[n..])
  {
    if Starts(s, Tag(tags, thinking)) {
      assert s[..0] == "" && s[0..] == s;
    } else {
      DecidedWithoutTag(tags, thinking, s[1..]);
      var n := |s| - Held(Tag(tags, thinking), s);
      assert s[..n] == [s[0]] + s[1..][..n - 1] && s[n..] == s[1..][n - 1..];
    }
  }

  /** The output of `r`, after other output. */
  function Behind(before: seq<Byte>, r: Split): Split { Split(before + r.bytes, r.thinking, r.pending) }

  /** The cut lemma: content that comes later only meets the held suffix. */
  lemma {:induction false} Cut(tags: Tags, thinking: bool, s: string, p: string)
    requires tags.Ok()
    ensures var r := Decided(tags, thinking, s);
      Decided(tags, thinking, s + p) == Behind(r.bytes, Decided(tags, r.thinking, r.pending + p))
    decreases |s|
  {
    StartsEarlier(s, p, Tag(tags, thinking));
    if Starts(s, Tag(tags, thinking)) {
    } else if Has(s, Tag(tags, thinking)) {
      CutAtTag(tags, thinking, s, p);
    } else {
      CutAtByte(tags, thinking, s, p);
    }
  }

  lemma {:induction false} CutAtTag(tags: Tags, thinking: bool, s: string, p: string)
    requires tags.Ok() && Has(s, Tag(tags, thinking)) && Has(s + p, Tag(tags, thinking))
    ensures var r := Decided(tags, thinking, s);
      Decided(tags, thinking, s + p) == Behind(r.bytes, Decided(tags, r.thinking, r.pending + p))
    decreases |s|, 0
  {
    var n := |Tag(tags, thinking)|;
    assert (s + p)[n..] == s[n..] + p;
    Cut(tags, !thinking, s[n..], p);
  }

  lemma {:induction false} CutAtByte(tags: Tags, thinking: bool, s: string, p: string)
    requires tags.Ok() && s != ""
    requires !Starts(s, Tag(tags, thinking)) && !Has(s, Tag(tags, thinking))
    requires !Starts(s + p, Tag(tags, thinking)) && !Has(s + p, Tag(tags, thinking))
    ensures var r := Decided(tags, thinking, s);
      Decided(tags, thinking, s + p) == Behind(r.bytes, Decided(tags, r.thinking, r.pending + p))
    decreases |s|, 0
  {
    Cut(tags, thinking, s[1..], p);
    TailOfSum(s, p);
    var r := Decided(tags, thinking, s[1..]);
    var first, later := [Byte(thinking, s[0])], Decided(tags, r.thinking, r.pending + p);
    BehindBoth(first, r.bytes, later);
  }

  lemma TailOfSum(s: string, p: string)
    requires s != ""
    ensures (s + p)[1..] == s[1..] + p && (s + p)[0] == s[0]
  {
  }

  lemma BehindBoth(a: seq<Byte>, b: seq<Byte>, r: Split)
    ensures Behind(a, Behind(b, r)) == Behind(a + b, r)
  {
    Assoc(a, b, r.bytes);
  }

  lemma FinishedAtTag(tags: Tags, thinking: bool, a: string, rest: string)
    requires tags.Ok() && Index(a + Tag(tags, thinking) + rest, Tag(tags, thinking)) == Some(|a|)
    ensures Finished(tags, thinking, a + Tag(tags, thinking) + rest)
         == Label(thinking, a) + Finished(tags, !thinking, rest)
  {
    DecidedAtTag(tags, thinking, a, rest);
    var r := Decided(tags, !thinking, rest);
    Assoc(Label(thinking, a), r.bytes, Label(r.thinking, r.pending));
  }

  /** The one-shot output is the content's segments, labelled in turn. */
  lemma {:induction false} FinishedIsSegments(tags: Tags, thinking: bool, s: string)
    requires tags.Ok()
    ensures Finished(tags, thinking, s) == Labels(thinking, Segments(tags, thinking, s))
    decreases |s|
  {
    var tag := Tag(tags, thinking);
    var found := Index(s, tag);
    if found.Some? {
      var a, rest := s[..found.value], s[found.value + |tag|..];
      SplitAtFirst(s, tag);
      FinishedAtTag(tags, thinking, a, rest);
      FinishedIsSegments(tags, !thinking, rest);
      SegmentsStep(tags, thinking, a, rest);
      LabelsStep(thinking, a, Segments(tags, !thinking, rest));
    } else {
      FinishedWithoutTag(tags, thinking, s);
      LabelsStep(thinking, s, []);
      assert [s] + [] == [s];
    }
  }

  lemma LabelsStep(thinking: bool, a: string, later: seq<string>)
    ensures Labels(thinking, [a] + later) == Label(thinking, a) + Labels(!thinking, later)
  {
    assert ([a] + later)[1..] == later;
  }

  /** What the last turn of the loop does when nothing more can come. */
  lemma FinishedWithoutTag(tags: Tags, thinking: bool, s: string)
    requires tags.Ok() && Index(s, Tag(tags, thinking)).None?
    ensures Finished(tags, thinking, s) == Label(thinking, s)
    ensures Decided(tags, thinking, s).thinking == thinking
  {
    var n := |s| - Held(Tag(tags, thinking), s);
    DecidedWithoutTag(tags, thinking, s);
    LabelCut(thinking, s, n);
  }

  lemma LabelCut(thinking: bool, s: string, n: nat)
    requires n <= |s|
    ensures Label(thinking, s[..n]) + Label(thinking, s[n..]) == Label(thinking, s)
  {
    LabelConcat(thinking, s[..n], s[n..]);
    assert s[..n] + s[n..] == s;
  }

  // ----- the machine -----

  /** One call of `emitText` or `emitReasoning`. */
  datatype Delta = Delta(reasoning: bool, text: string)

  function BytesOf(deltas: seq<Delta>): seq<Byte> {
    if deltas == [] then []
    else BytesOf(deltas[..|deltas| - 1]) + Label(deltas[|deltas| - 1].reasoning, deltas[|deltas| - 1].text)
  }

  lemma BytesOfAppend(deltas: seq<Delta>, d: Delta)
    ensures BytesOf(deltas + [d]) == BytesOf(deltas) + Label(d.reasoning, d.text)
  {
    assert (deltas + [d])[..|deltas|] == deltas;
  }

  class Splitter {
    const tags: Tags
    var thinking: bool
    var pending: string

    constructor ()
      ensures !thinking && pending == "" && tags == THINK_TAGS && tags.Ok()
    {
      tags, thinking, pending := THINK_TAGS, false, "";
    }

    method Feed(content: string, final: bool) returns (deltas: seq<Delta>)
      requires tags.Ok()
      modifies this
      ensures !final ==>
        Split(BytesOf(deltas), thinking, pending) == Decided(tags, old(thinking), old(pending) + content)
      ensures final ==> pending == "" && BytesOf(deltas) == Finished(tags, old(thinking), old(pending) + content)
      ensures final ==> thinking == Decided(tags, old(thinking), old(pending) + content).thinking
      ensures |pending| < |Tag(tags, thinking)| && (tags == THINK_TAGS ==> |pending| <= 7)
    {
      deltas := [];
      pending := pending + content;
      ghost var bytes: seq<Byte> := [];
      ghost var all := Decided(tags, thinking, pending);
      while |pending| > 0
        invariant bytes == BytesOf(deltas)
        invariant all == Behind(bytes, Decided(tags, thinking, pending))
        decreases |pending|
      {
        ghost var rest := Decided(tags, thinking, pending);
        var delta, more := Turn(final);
        BytesOfAppend(deltas, delta);
        deltas := deltas + [delta];
        Assoc(bytes, Label(delta.reasoning, delta.text), Decided(tags, thinking, pending).bytes);
        Assoc(bytes, rest.bytes, Label(rest.thinking, rest.pending));
        bytes := bytes + Label(delta.reasoning, delta.text);
        if !more {
          return;
        }
      }
    }

    /** One turn of the loop: emit up to the next tag, or everything that is safe. */
    method Turn(final: bool) returns (delta: Delta, more: bool)
      requires tags.Ok() && |pending| > 0
      modifies this
      ensures more ==> |pending| < |old(pending)|
      ensures more ==>
        Decided(tags, old(thinking), old(pending))
          == Behind(Label(delta.reasoning, delta.text), Decided(tags, thinking, pending))
      ensures !more && !final ==> |pending| < |Tag(tags, thinking)|
      ensures !more && !final ==>
        Decided(tags, old(thinking), old(pending)) == Split(Label(delta.reasoning, delta.text), thinking, pending)
      ensures !more && final ==> pending == "" && thinking == Decided(tags, old(thinking), old(pending)).thinking
      ensures !more && final ==> Finished(tags, old(thinking), old(pending)) == Label(delta.reasoning, delta.text)
    {
      var tag := Tag(tags, thinking);
      var found := Index(pending, tag);
      more := found.Some?;
      if more {
        var idx := found.value;
        SplitAtFirst(pending, tag);
        DecidedAtTag(tags, thinking, pending[..idx], pending[idx + |tag|..]);
        delta := Delta(thinking, pending[..idx]);
        pending := pending[idx + |tag|..];
        thinking := !thinking;
        return;
      }
      var keep := 0;
      if !final {
        keep := Keep(tag, pending);
        DecidedWithoutTag(tags, thinking, pending);
      } else {
        FinishedWithoutTag(tags, thinking, pending);
        assert pending[..|pending| - keep] == pending;
      }
      delta := Delta(thinking, pending[..|pending| - keep]);
      pending := pending[|pending| - keep..];
    }
  }

  /** The search, longest first, for a suffix that could be the beginning of the tag. */
  method Keep(tag: string, s: string) returns (keep: nat)
    requires tag != ""
    ensures keep == Held(tag, s) < |tag|
  {
    HeldStarts(tag, s);
    keep := 0;
    var n := if |s| < |tag| - 1 then |s| else |tag| - 1;
    while n > 0
      invariant 0 <= n <= |s| && n <= |tag| - 1 && Held(tag, s) <= n && keep == 0
    {
      if Suffix(s, n) == tag[..n] {
        HeldIsLongest(tag, s, n);
        keep := n;
        break;
      }
      n := n - 1;
    }
  }
}
