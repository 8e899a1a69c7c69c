/** internal/handler/sse_frame.go: the frames that the gateway itself prints, each with its event type
    in front, as the stream converter finds them. */
module OpenAIFrames {
  import opened Text
  import opened JsonText
  import opened OpenAIChunk
  import opened OpenAISse

  datatype Frame =
    | MessageFrame(id: string, model: string, input: int, output: int)
    | TextFrame(index: int)
    | ToolFrame(index: int, id: string, name: string)
    | ThinkingFrame(index: int, signature: string)
    | TextDeltaFrame(index: int, text: string)
    | InputDeltaFrame(index: int, json: string)
    | ThinkingDeltaFrame(index: int, thinking: string)
    | StopFrame(reason: string, output: int)

  // ----- printing -----

  function IndexDoc(i: int, key: string, d: Doc): Doc { More("index", ":" + PrintInt(i) + ",", More(key, ":{", d)) }

  /** The frame behind its event type. */
  function InnerDoc(f: Frame): Doc {
    match f
    case MessageFrame(id, model, input, output) => More("message", ":{", MessageDoc(id, model, input, output))
    case TextFrame(i) => IndexDoc(i, "content_block", Field("type", "text", Tail(",", Field("text", "", Tail("}}", End)))))
    case ToolFrame(i, id, name) =>
      IndexDoc(i, "content_block",
               Field("type", "tool_use", Tail(",", Field("id", id, Tail(",", Field("name", name, Tail(",", More("input", ":{}}}", End))))))))
    case ThinkingFrame(i, signature) =>
      IndexDoc(i, "content_block",
               Field("type", "thinking", Tail(",", Field("thinking", "", Tail(",", Field("signature", signature, Tail("}}", End)))))))
    case TextDeltaFrame(i, text) => IndexDoc(i, "delta", Field("type", "text_delta", Tail(",", Field("text", text, Tail("}}", End)))))
    case InputDeltaFrame(i, json) =>
      IndexDoc(i, "delta", Field("type", "input_json_delta", Tail(",", Field("partial_json", json, Tail("}}", End)))))
    case ThinkingDeltaFrame(i, thinking) =>
      IndexDoc(i, "delta", Field("type", "thinking_delta", Tail(",", Field("thinking", thinking, Tail("}}", End)))))
    case StopFrame(reason, output) =>
      More("delta", ":{", Field("stop_reason", reason, Tail("},", More("usage", ":{", More("output_tokens", ":" + PrintInt(output) + "}}", End)))))
  }

  function MessageDoc(id: string, model: string, input: int, output: int): Doc {
    Field("id", id, Tail(",", Field("type", "message", Tail(",", Field("role", "assistant", Tail(",",
      More("content", ":[],", Field("model", model, Tail(",", UsageDoc(input, output))))))))))
  }

  function UsageDoc(input: int, output: int): Doc {
    More("usage", ":{", More("input_tokens", ":" + PrintInt(input) + ",", More("output_tokens", ":" + PrintInt(output) + "}}}", End)))
  }

  function EventType(f: Frame): string {
    match f
    case MessageFrame(_, _, _, _) => "message_start"
    case TextFrame(_) => "content_block_start"
    case ToolFrame(_, _, _) => "content_block_start"
    case ThinkingFrame(_, _) => "content_block_start"
    case TextDeltaFrame(_, _) => "content_block_delta"
    case InputDeltaFrame(_, _) => "content_block_delta"
    case ThinkingDeltaFrame(_, _) => "content_block_delta"
    case StopFrame(_, _) => "message_delta"
  }

  function FrameDoc(f: Frame): Doc { Field("type", EventType(f), Tail(",", InnerDoc(f))) }

  /** What the slow path decodes from a frame. */
  function Meant(f: Frame): Payload {
    match f
    case MessageFrame(_, model, _, _) => MessageStart(Some(model))
    case TextFrame(i) => BlockStart(i, Some(Block("text", "", "", "")))
    case ToolFrame(i, id, name) => BlockStart(i, Some(Block("tool_use", "", id, name)))
    case ThinkingFrame(i, _) => BlockStart(i, Some(Block("thinking", "", "", "")))
    case TextDeltaFrame(i, text) => BlockDelta(i, Some(Delta("text_delta", Some(text), None, None)))
    case InputDeltaFrame(i, json) => BlockDelta(i, Some(Delta("input_json_delta", None, Some(json), None)))
    case ThinkingDeltaFrame(i, thinking) => BlockDelta(i, Some(Delta("thinking_delta", None, None, Some(thinking))))
    case StopFrame(reason, _) => MessageDelta(Some(Some(reason)))
  }

  /** The fast path on a frame. */
  function FastFrame(msgId: string, created: int, f: Frame): Option<string> {
    match Searched(Meant(f), ['{'] + Print(FrameDoc(f)))
    case None => None
    case Some((model, body)) => Some(Prefix(msgId, created, model) + Spliced(body))
  }

  // ----- searching -----

  lemma IndexedFacts(i: int, key: string, d: Doc)
    requires Words(key) && Printed(d)
    ensures Printed(IndexDoc(i, key, d))
    ensures forall k :: k != "index" && k != key ==> ValueOf(IndexDoc(i, key, d), k) == ValueOf(d, k)
    ensures forall k, w :: Has(IndexDoc(i, key, d), k, w) <==> Has(d, k, w)
  {
    OuterFacts(key, ":{", d);
    IndexFacts(i, More(key, ":{", d));
  }

  /** The event type in front hides no key but `type`, and is no block or delta type. */
  lemma TypeInFront(event: string, d: Doc)
    requires Printed(d)
    ensures Printed(Field("type", event, Tail(",", d)))
    ensures forall k :: k != "type" ==> ValueOf(Field("type", event, Tail(",", d)), k) == ValueOf(d, k)
    ensures forall w :: w != event ==> (Has(Field("type", event, Tail(",", d)), "type", w) <==> Has(d, "type", w))
  {
    FieldFacts("type", event, Tail(",", d));
  }

  lemma NumberIsBare(n: int, after: string)
    requires after != "" && '"' !in after
    ensures var a := ":" + PrintInt(n) + after; |a| > 1 && a[0] == ':' && !Blank(a[1]) && '"' !in a
  {
    var s := PrintInt(n);
    assert n < 0 ==> s == ['-'] + PrintNat(-n);
    forall j | 0 <= j < |s| ensures s[j] == '-' || IsDigit(s[j]) {
      if n < 0 && j > 0 { assert s[j] == PrintNat(-n)[j - 1]; }
    }
    assert (":" + s + after)[1] == s[0];
  }

  lemma UsageFacts(input: int, output: int)
    ensures Printed(UsageDoc(input, output))
  {
    NumberFacts("output_tokens", output, "}}}", End);
    var d0 := More("output_tokens", ":" + PrintInt(output) + "}}}", End);
    NumberFacts("input_tokens", input, ",", d0);
    OuterFacts("usage", ":{", More("input_tokens", ":" + PrintInt(input) + ",", d0));
  }

  lemma NumberFacts(key: string, n: int, after: string, d: Doc)
    requires Words(key) && Printed(d) && after != "" && '"' !in after
    ensures Printed(More(key, ":" + PrintInt(n) + after, d))
  {
    NumberIsBare(n, after);
    OuterFacts(key, ":" + PrintInt(n) + after, d);
  }

  lemma ModelFacts(model: string, u: Doc)
    requires Printed(u)
    ensures var d := More("content", ":[],", Field("model", model, Tail(",", u)));
            Printed(d) && ValueOf(d, "model") == Some(model)
  {
    FieldFacts("model", model, Tail(",", u));
    OuterFacts("content", ":[],", Field("model", model, Tail(",", u)));
  }

  lemma SkipField(key: string, v: string, d: Doc)
    requires Printed(d) && Words(key) && key != "model"
    ensures var e := Field(key, v, Tail(",", d)); Printed(e) && ValueOf(e, "model") == ValueOf(d, "model")
  {
    FieldFacts(key, v, Tail(",", d));
  }

  lemma MessageFacts(id: string, model: string, input: int, output: int)
    ensures Printed(MessageDoc(id, model, input, output))
    ensures ValueOf(MessageDoc(id, model, input, output), "model") == Some(model)
  {
    var u := UsageDoc(input, output);
    UsageFacts(input, output);
    ModelFacts(model, u);
    var d2 := More("content", ":[],", Field("model", model, Tail(",", u)));
    SkipField("role", "assistant", d2);
    var d3 := Field("role", "assistant", Tail(",", d2));
    SkipField("type", "message", d3);
    SkipField("id", id, Field("type", "message", Tail(",", d3)));
  }

  // ----- lookups in a frame -----

  lemma BlockInside(event: string, i: int, key: string, d: Doc)
    requires Printed(d) && EventName(event) && (key == "content_block" || key == "delta")
    ensures var w := Field("type", event, Tail(",", IndexDoc(i, key, d)));
            Printed(w) && forall k, v :: Inside(w, d, k, v)
  {
    IndexedFacts(i, key, d);
    TypeInFront(event, IndexDoc(i, key, d));
  }

  lemma OuterInside(event: string, key: string, d: Doc)
    requires Printed(d) && EventName(event) && (key == "message" || key == "delta")
    ensures var w := Field("type", event, Tail(",", More(key, ":{", d)));
            Printed(w) && forall k, v :: Inside(w, d, k, v)
  {
    OuterFacts(key, ":{", d);
    TypeInFront(event, More(key, ":{", d));
  }

  /** What the fast path should splice for a frame: a tool's id and name are printed even when they
      are empty. */
  function FrameExpected(f: Frame): Splice {
    match f
    case ToolFrame(i, id, name) => if i < 0 then None else Some(("", ToolStart(i, Quote(id), Quote(name))))
    case _ => Expected(Meant(f))
  }

  lemma ToolLook(i: int, id: string, name: string)
    ensures var d := Field("type", "tool_use", Tail(",", Field("id", id, Tail(",", Field("name", name, Tail(",", More("input", ":{}}}", End)))))));
            Printed(d) && Looked(Meant(ToolFrame(i, id, name)), d) == FrameExpected(ToolFrame(i, id, name))
  {
    OuterFacts("input", ":{}}}", End);
    var d0 := More("input", ":{}}}", End);
    FieldFacts("name", name, Tail(",", d0));
    var d1 := Field("name", name, Tail(",", d0));
    FieldFacts("id", id, Tail(",", d1));
    FieldFacts("type", "tool_use", Tail(",", Field("id", id, Tail(",", d1))));
  }

  lemma TextLook(i: int)
    ensures var d := Field("type", "text", Tail(",", Field("text", "", Tail("}}", End))));
            Printed(d) && Looked(Meant(TextFrame(i)), d) == FrameExpected(TextFrame(i))
  {
    FieldFacts("text", "", Tail("}}", End));
    FieldFacts("type", "text", Tail(",", Field("text", "", Tail("}}", End))));
    FixedIsQuote("");
  }

  lemma ThinkingLook(i: int, signature: string)
    ensures var d := Field("type", "thinking", Tail(",", Field("thinking", "", Tail(",", Field("signature", signature, Tail("}}", End))))));
            Printed(d) && Looked(Meant(ThinkingFrame(i, signature)), d) == FrameExpected(ThinkingFrame(i, signature))
  {
    FieldFacts("signature", signature, Tail("}}", End));
    var d1 := Field("signature", signature, Tail("}}", End));
    FieldFacts("thinking", "", Tail(",", d1));
    FieldFacts("type", "thinking", Tail(",", Field("thinking", "", Tail(",", d1))));
  }

  lemma DeltaKindLook(i: int, kind: string, key: string, value: string, delta: Delta)
    requires Words(key) && (kind == "text_delta" || kind == "input_json_delta" || kind == "thinking_delta")
    requires key == if kind == "text_delta" then "text" else if kind == "input_json_delta" then "partial_json" else "thinking"
    requires delta.kind == kind && (kind == "text_delta" ==> delta.text == Some(value))
    requires (kind == "input_json_delta" ==> delta.partialJson == Some(value)) && (kind == "thinking_delta" ==> delta.thinking == Some(value))
    ensures var d := Field("type", kind, Tail(",", Field(key, value, Tail("}}", End))));
            Printed(d) && Looked(BlockDelta(i, Some(delta)), d) == Expected(BlockDelta(i, Some(delta)))
  {
    FieldFacts(key, value, Tail("}}", End));
    FieldFacts("type", kind, Tail(",", Field(key, value, Tail("}}", End))));
  }

  lemma OutputFacts(output: int)
    ensures Printed(More("usage", ":{", More("output_tokens", ":" + PrintInt(output) + "}}", End)))
  {
    NumberIsBare(output, "}}");
    OuterFacts("output_tokens", ":" + PrintInt(output) + "}}", End);
    OuterFacts("usage", ":{", More("output_tokens", ":" + PrintInt(output) + "}}", End));
  }

  lemma StopLook(reason: string, usage: Doc)
    requires Printed(usage)
    ensures var (d, p) := (Field("stop_reason", reason, Tail("},", usage)), MessageDelta(Some(Some(reason))));
            Printed(d) && Looked(p, d) == Expected(p)
  {
    FieldFacts("stop_reason", reason, Tail("},", usage));
  }

  lemma BlockFrameLook(f: Frame)
    requires f.TextFrame? || f.ToolFrame? || f.ThinkingFrame?
    ensures Printed(FrameDoc(f)) && Looked(Meant(f), FrameDoc(f)) == FrameExpected(f)
  {
    var d := InnerDoc(f).rest.rest;
    match f {
      case TextFrame(i) => TextLook(i);
      case ToolFrame(i, id, name) => ToolLook(i, id, name);
      case ThinkingFrame(i, signature) => ThinkingLook(i, signature);
    }
    BlockInside("content_block_start", f.index, "content_block", d);
    LookInside(Meant(f), FrameDoc(f), d);
  }

  lemma DeltaFrameLook(f: Frame)
    requires f.TextDeltaFrame? || f.InputDeltaFrame? || f.ThinkingDeltaFrame?
    ensures Printed(FrameDoc(f)) && Looked(Meant(f), FrameDoc(f)) == FrameExpected(f)
  {
    KeysAreWords();
    var d := InnerDoc(f).rest.rest;
    var delta := Meant(f).delta.value;
    match f {
      case TextDeltaFrame(i, text) => DeltaKindLook(i, "text_delta", "text", text, delta);
      case InputDeltaFrame(i, json) => DeltaKindLook(i, "input_json_delta", "partial_json", json, delta);
      case ThinkingDeltaFrame(i, thinking) => DeltaKindLook(i, "thinking_delta", "thinking", thinking, delta);
    }
    BlockInside("content_block_delta", f.index, "delta", d);
    LookInside(Meant(f), FrameDoc(f), d);
  }

  lemma MessageFrameLook(f: Frame)
    requires f.MessageFrame? || f.StopFrame?
    ensures Printed(FrameDoc(f)) && Looked(Meant(f), FrameDoc(f)) == FrameExpected(f)
  {
    var d := InnerDoc(f).rest;
    match f {
      case MessageFrame(id, model, input, output) =>
        MessageFacts(id, model, input, output);
        OuterInside("message_start", "message", d);
      case StopFrame(reason, output) =>
        OutputFacts(output);
        StopLook(reason, More("usage", ":{", More("output_tokens", ":" + PrintInt(output) + "}}", End)));
        OuterInside("message_delta", "delta", d);
    }
    LookInside(Meant(f), FrameDoc(f), d);
  }

  /** On a frame, too, the first match of every marker is the real key. */
  lemma FrameIsSearched(f: Frame)
    ensures Searched(Meant(f), ['{'] + Print(FrameDoc(f))) == FrameExpected(f)
  {
    if f.MessageFrame? || f.StopFrame? {
      MessageFrameLook(f);
    } else if f.TextFrame? || f.ToolFrame? || f.ThinkingFrame? {
      BlockFrameLook(f);
    } else {
      DeltaFrameLook(f);
    }
    SearchedIsLooked(Meant(f), FrameDoc(f));
  }

  // ----- fast is slow -----

  /** The encoder leaves an empty tool id out, the fast path splices it in. */
  lemma EmptyToolId(i: int, name: string)
    ensures |Rest(PrintDelta(NOTHING.(tools := [ToolCall(i, "", "function", Some(name), "")])), None)|
            < |Spliced(ToolStart(i, Quote(""), Quote(name)))|
  {
    CallIsSpliced(i, "x", name);
    var with, without := ToolCall(i, "x", "function", Some(name), ""), ToolCall(i, "", "function", Some(name), "");
    ToolsAreSpliced(with);
    ToolsAreSpliced(without);
    AnonymousCall(i, name);
    IdQuotes();
  }

  lemma IdQuotes()
    ensures |Quote("x")| == 3 && |Quote("")| == 2
  {
    FixedIsQuote("x");
    FixedIsQuote("");
  }

  lemma AnonymousCall(i: int, name: string)
    ensures |PrintTool(ToolCall(i, "", "function", Some(name), ""))| + |Marker("id")| + |Quote("x")| + 1
            == |PrintTool(ToolCall(i, "x", "function", Some(name), ""))|
  {
    CallIsPrinted(i, "x", name);
    var n, a := Member("name", Quote(name)), Member("arguments", Quote(""));
    assert [n] + [a] == [n, a];
    Joined2(n, a);
    var m, t, f := Member("index", PrintInt(i)), Member("type", Quote("function")), Member("function", Object([n, a]));
    assert [m] + [] + [t] + [f] == [m, t, f];
    Joined3(m, t, f);
  }

  lemma ToolFrameAgrees(created: int, i: int, id: string, name: string)
    ensures Tailing(created, "\"\"", Spliced(ToolStart(i, Quote(id), Quote(name))))
            == Tailing(created, Quote(""), Rest(PrintDelta(NOTHING.(tools := [ToolCall(i, id, "function", Some(name), "")])), None))
            <==> id != ""
  {
    NothingIsFixed();
    if id != "" { CallIsSpliced(i, id, name); } else { EmptyToolId(i, name); }
  }

  /** The gateway's own frames: the fast path answers what the slow path prints, except for a negative
      index, an untrimmed stop reason, an id the shortcut misprints, and an empty tool id. */
  lemma FrameFastIsSlowExactly(msgId: string, created: int, f: Frame)
    requires FastFrame(msgId, created, f).Some?
    ensures FastFrame(msgId, created, f) == Slow(msgId, created, Meant(f)) <==>
            IdFaithful(msgId) && IndexOk(Meant(f)) && ReasonOk(Meant(f)) && (f.ToolFrame? ==> f.id != "")
  {
    FrameIsSearched(f);
    if f.ToolFrame? {
      SpliceIs(msgId, created, "", ToolStart(f.index, Quote(f.id), Quote(f.name)));
      SlowIs(msgId, created, Meant(f));
      ToolFrameAgrees(created, f.index, f.id, f.name);
      CompareBehindId(msgId, Tailing(created, "\"\"", Spliced(ToolStart(f.index, Quote(f.id), Quote(f.name)))),
                      Tailing(created, Quote(""), Rest(PrintDelta(Decoded(Meant(f)).value.1), None)));
    } else {
      SearchedIsExpected(Meant(f));
      FastIsSlowExactly(msgId, created, Meant(f));
    }
  }

  /** Such a frame is answered, and differently. */
  lemma EmptyToolIdDiffers(msgId: string, created: int, i: nat, name: string)
    ensures var f := ToolFrame(i, "", name);
      FastFrame(msgId, created, f).Some? && FastFrame(msgId, created, f) != Slow(msgId, created, Meant(f))
  {
    FrameIsSearched(ToolFrame(i, "", name));
    FrameFastIsSlowExactly(msgId, created, ToolFrame(i, "", name));
  }
}
