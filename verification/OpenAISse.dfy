/** internal/adapter/openai_sse.go: a stream event becomes a chat completion chunk, either by
    searching its bytes and splicing (fast) or by decoding and printing (slow). */
module OpenAISse {
  import opened Text
  import opened JsonText
  import opened OpenAIChunk

  // ----- the payloads -----

  datatype Block = Block(kind: string, text: string, id: string, name: string)

  datatype Delta = Delta(kind: string, text: Option<string>, partialJson: Option<string>, thinking: Option<string>)

  /** The payload structs; `None` where the source has a nil pointer. */
  datatype Payload =
    | MessageStart(model: Option<string>)
    | BlockStart(index: int, block: Option<Block>)
    | BlockDelta(index: int, delta: Option<Delta>)
    | MessageDelta(stop: Option<Option<string>>)

  /** What is still to be printed: the bare text that comes first, and the rest. */
  datatype Tail = Tail(after: string, rest: Doc)

  function Field(key: string, value: string, t: Tail): Doc { More(key, ":", More(value, t.after, t.rest)) }

  /** A field with `omitempty`, and the fields behind it. */
  function Optional(key: string, value: Option<string>, t: Tail): Tail {
    if value.Some? then Tail(",", Field(key, value.value, t)) else t
  }

  function BlockDoc(b: Block): Doc {
    Field("type", b.kind,
          Optional("text", NonEmpty(b.text), Optional("id", NonEmpty(b.id), Optional("name", NonEmpty(b.name), Tail("}}", End)))))
  }

  function DeltaDoc(d: Delta): Doc {
    Field("type", d.kind,
          Optional("text", d.text, Optional("partial_json", d.partialJson, Optional("thinking", d.thinking, Tail("}}", End)))))
  }

  /** The payload as Go's encoder prints it, after the opening brace. */
  function PayloadDoc(p: Payload): Doc {
    match p
    case MessageStart(None) => More("message", ":null}", End)
    case MessageStart(Some(m)) => More("message", ":{", Field("model", m, Tail("}}", End)))
    case BlockStart(i, b) =>
      More("index", ":" + PrintInt(i) + ",",
           if b.None? then More("content_block", ":null}", End) else More("content_block", ":{", BlockDoc(b.value)))
    case BlockDelta(i, d) =>
      More("index", ":" + PrintInt(i) + ",",
           if d.None? then More("delta", ":null}", End) else More("delta", ":{", DeltaDoc(d.value)))
    case MessageDelta(None) => More("delta", ":null}", End)
    case MessageDelta(Some(None)) => More("delta", ":{}}", End)
    case MessageDelta(Some(Some(r))) => More("delta", ":{", Field("stop_reason", r, Tail("}}", End)))
  }

  function Wire(p: Payload): string { ['{'] + Print(PayloadDoc(p)) }

  // ----- the slow path -----

  function NormalStop(reason: string): string {
    if reason == "" || reason == "stop" || reason == "end_turn" then "stop"
    else if reason == "tool_use" then "tool_calls"
    else if reason == "max_tokens" then "length"
    else if reason == "refusal" then "content_filter"
    else reason
  }

  /** What the decoded payload asks for: the model, the delta and the finish reason. */
  function Decoded(p: Payload): Option<(string, ChunkDelta, Option<string>)> {
    match p
    case MessageStart(Some(m)) => Some((m, NOTHING.(role := Some("assistant")), None))
    case BlockStart(i, Some(b)) =>
      if i < 0 then None
      else if b.kind == "text" then if b.text == "" then None else Some(("", NOTHING.(content := Some(b.text)), None))
      else if b.kind == "tool_use" then Some(("", NOTHING.(tools := [ToolCall(i, b.id, "function", Some(b.name), "")]), None))
      else None
    case BlockDelta(i, Some(d)) =>
      if i < 0 then None
      else if d.kind == "text_delta" then if d.text.None? then None else Some(("", NOTHING.(content := d.text), None))
      else if d.kind == "input_json_delta" then
        if d.partialJson.None? then None
        else Some(("", NOTHING.(tools := [ToolCall(i, "", "", None, d.partialJson.value)]), None))
      else if d.kind == "thinking_delta" then
        if d.thinking.None? then None else Some(("", NOTHING.(reasoning := d.thinking), None))
      else None
    case MessageDelta(Some(Some(r))) => Some(("", NOTHING, Some(NormalStop(Trim(r)))))
    case _ => None
  }

  /** What a client is sent: the model with the role, each kind of delta in its own field, the tool of a
      block with its index, id and name, and the mapped reason; nothing for an empty text or a bad index. */
  lemma DecodedIs(p: Payload)
    ensures p.MessageStart? && p.model.Some? ==>
      Decoded(p) == Some((p.model.value, ChunkDelta(Some("assistant"), None, None, []), None))
    ensures p.BlockStart? && p.index >= 0 && p.block.Some? && p.block.value.kind == "tool_use" ==>
      Decoded(p) == Some(("", ChunkDelta(None, None, None, [ToolCall(p.index, p.block.value.id, "function", Some(p.block.value.name), "")]), None))
    ensures p.BlockDelta? && p.index >= 0 && p.delta.Some? && p.delta.value.kind == "text_delta" && p.delta.value.text.Some? ==>
      Decoded(p) == Some(("", ChunkDelta(None, p.delta.value.text, None, []), None))
    ensures p.BlockDelta? && p.index >= 0 && p.delta.Some? && p.delta.value.kind == "thinking_delta" && p.delta.value.thinking.Some? ==>
      Decoded(p) == Some(("", ChunkDelta(None, None, p.delta.value.thinking, []), None))
    ensures p.BlockDelta? && p.index >= 0 && p.delta.Some? && p.delta.value.kind == "input_json_delta" && p.delta.value.partialJson.Some? ==>
      Decoded(p) == Some(("", ChunkDelta(None, None, None, [ToolCall(p.index, "", "", None, p.delta.value.partialJson.value)]), None))
    ensures (p.BlockStart? || p.BlockDelta?) && p.index < 0 ==> Decoded(p) == None
  {
  }

  /** `buildOpenAIChunkSlow` */
  function Slow(msgId: string, created: int, p: Payload): Option<string> {
    match Decoded(p)
    case None => None
    case Some((model, delta, finish)) => Some(PrintChunk(Chunk(msgId, CHUNK_NAME, created, model, delta, finish)))
  }

  // ----- the fast path -----

  /** A character for which `appendOpenAIJSONString` calls the encoder. */
  predicate Special(c: char) { c < ' ' || c == '\\' || c == '"' || c as int >= 0x80 }

  function AppendedString(s: string): string {
    if exists i :: 0 <= i < |s| && Special(s[i]) then Quote(s) else ['"'] + (s + ['"'])
  }

  function Prefix(msgId: string, created: int, quotedModel: string): string {
    ID_PREFIX + AppendedString(msgId) + OBJECT_CREATED + PrintInt(created) + MODEL_PREFIX
    + (if quotedModel == "" then "\"\"" else quotedModel) + CHOICES_PREFIX
  }

  /** `normalizeOpenAIStopReasonQuoted` */
  function NormalStopQuoted(q: string): string {
    if q == "" || q == "\"\"" || q == "\"stop\"" || q == "\"end_turn\"" then "\"stop\""
    else if q == "\"tool_use\"" then "\"tool_calls\""
    else if q == "\"max_tokens\"" then "\"length\""
    else if q == "\"refusal\"" then "\"content_filter\""
    else q
  }

  predicate Found(data: string, marker: string) { CutAfter(data, marker).Some? }

  /** The quoted model and what to splice; `None` when the fast path gives up. */
  type Splice = Option<(string, Body)>

  function SpliceStart(model: Option<string>): Splice { if model.Some? then Some((model.value, Start)) else None }

  function SpliceBlock(index: int, tool: bool, text: bool, id: Option<string>, name: Option<string>, content: Option<string>)
    : Splice
  {
    if tool && id.Some? && name.Some? then
      if index < 0 then None else Some(("", ToolStart(index, id.value, name.value)))
    else if text && content.Some? && |content.value| > 2 then Some(("", Content(content.value)))
    else None
  }

  function SpliceDelta(index: int, text: bool, args: bool, thinking: bool,
                       content: Option<string>, arguments: Option<string>, reasoning: Option<string>): Splice
  {
    if text then if content.Some? then Some(("", Content(content.value))) else None
    else if args then
      if arguments.Some? && index >= 0 then Some(("", ToolArgs(index, arguments.value))) else None
    else if thinking then if reasoning.Some? then Some(("", Reasoning(reasoning.value))) else None
    else None
  }

  function SpliceFinish(stop: Option<string>): Splice {
    if stop.Some? then Some(("", Finish(NormalStopQuoted(stop.value)))) else None
  }

  predicate Typed(data: string, kind: string) { Found(data, Pair("type", kind)) }

  function Under(data: string, key: string): Option<string> { Extracted(data, Marker(key)) }

  /** The tool index is decoded from the payload, not searched for. */
  function Searched(p: Payload, data: string): Splice {
    match p
    case MessageStart(_) => SpliceStart(Under(data, "model"))
    case BlockStart(index, _) =>
      SpliceBlock(index, Typed(data, "tool_use"), Typed(data, "text"),
                  Under(data, "id"), Under(data, "name"), Under(data, "text"))
    case BlockDelta(index, _) =>
      SpliceDelta(index, Typed(data, "text_delta"), Typed(data, "input_json_delta"), Typed(data, "thinking_delta"),
                  Under(data, "text"), Under(data, "partial_json"), Under(data, "thinking"))
    case MessageDelta(_) => SpliceFinish(Under(data, "stop_reason"))
  }

  /** `appendOpenAIChunkFast` on an empty buffer. */
  function Fast(msgId: string, created: int, p: Payload): Option<string> {
    match Searched(p, Wire(p))
    case None => None
    case Some((model, body)) => Some(Prefix(msgId, created, model) + Spliced(body))
  }

  // ----- what the searches find in a payload -----

  predicate TailOk(t: Tail) {
    && t.after != "" && '"' !in t.after && !Word(t.after[0]) && t.after[0] != ':'
    && Printed(t.rest)
  }

  lemma FieldFacts(key: string, v: string, t: Tail)
    requires TailOk(t) && Words(key)
    ensures Printed(Field(key, v, t))
    ensures forall k :: ValueOf(Field(key, v, t), k) == if key == k then Some(v) else ValueOf(t.rest, k)
    ensures forall k, w :: Has(Field(key, v, t), k, w) <==> (key == k && v == w) || Has(t.rest, k, w)
  {
  }

  lemma OptionalFacts(key: string, v: Option<string>, t: Tail)
    requires TailOk(t) && Words(key)
    ensures TailOk(Optional(key, v, t))
    ensures forall k :: ValueOf(Optional(key, v, t).rest, k) == if v.Some? && key == k then v else ValueOf(t.rest, k)
    ensures forall k, w :: Has(Optional(key, v, t).rest, k, w) <==> (key == k && v == Some(w)) || Has(t.rest, k, w)
  {
    if v.Some? { FieldFacts(key, v.value, t); }
  }

  lemma BlockFacts(b: Block)
    ensures Printed(BlockDoc(b))
    ensures ValueOf(BlockDoc(b), "text") == NonEmpty(b.text)
    ensures ValueOf(BlockDoc(b), "id") == NonEmpty(b.id) && ValueOf(BlockDoc(b), "name") == NonEmpty(b.name)
    ensures forall w :: Has(BlockDoc(b), "type", w) <==> b.kind == w
  {
    var t0 := Tail("}}", End);
    var t1 := Optional("name", NonEmpty(b.name), t0);
    var t2 := Optional("id", NonEmpty(b.id), t1);
    var t3 := Optional("text", NonEmpty(b.text), t2);
    OptionalFacts("name", NonEmpty(b.name), t0);
    OptionalFacts("id", NonEmpty(b.id), t1);
    OptionalFacts("text", NonEmpty(b.text), t2);
    FieldFacts("type", b.kind, t3);
  }

  lemma DeltaFacts(d: Delta)
    ensures Printed(DeltaDoc(d))
    ensures ValueOf(DeltaDoc(d), "text") == d.text
    ensures ValueOf(DeltaDoc(d), "partial_json") == d.partialJson && ValueOf(DeltaDoc(d), "thinking") == d.thinking
    ensures forall w :: Has(DeltaDoc(d), "type", w) <==> d.kind == w
  {
    var t0 := Tail("}}", End);
    var t1 := Optional("thinking", d.thinking, t0);
    var t2 := Optional("partial_json", d.partialJson, t1);
    var t3 := Optional("text", d.text, t2);
    OptionalFacts("thinking", d.thinking, t0);
    OptionalFacts("partial_json", d.partialJson, t1);
    OptionalFacts("text", d.text, t2);
    FieldFacts("type", d.kind, t3);
  }

  /** A wrapper key, and what is inside. */
  lemma OuterFacts(key: string, after: string, d: Doc)
    requires Words(key) && Printed(d) && |after| > 1 && after[0] == ':' && !Blank(after[1]) && '"' !in after
    ensures Printed(More(key, after, d))
    ensures forall k :: k != key ==> ValueOf(More(key, after, d), k) == ValueOf(d, k)
    ensures forall k, w :: Has(More(key, after, d), k, w) <==> Has(d, k, w)
  {
  }

  lemma IndexFacts(i: int, d: Doc)
    requires Printed(d)
    ensures Printed(More("index", ":" + PrintInt(i) + ",", d))
    ensures forall k :: k != "index" ==> ValueOf(More("index", ":" + PrintInt(i) + ",", d), k) == ValueOf(d, k)
    ensures forall k, w :: Has(More("index", ":" + PrintInt(i) + ",", d), k, w) <==> Has(d, k, w)
  {
    var n := PrintInt(i);
    assert i < 0 ==> n == ['-'] + PrintNat(-i);
    assert n[0] == '-' || IsDigit(n[0]);
    forall j | 0 <= j < |n| ensures n[j] == '-' || IsDigit(n[j]) {
      if i < 0 && j > 0 { assert n[j] == PrintNat(-i)[j - 1]; }
    }
    var after := ":" + n + ",";
    assert after[1] == n[0];
    OuterFacts("index", after, d);
  }

  /** What the fast path should splice for a payload. */
  function Expected(p: Payload): Option<(string, Body)> {
    match p
    case MessageStart(Some(m)) => Some((Quote(m), Start))
    case BlockStart(i, Some(b)) =>
      if b.kind == "tool_use" && b.id != "" && b.name != "" then
        if i < 0 then None else Some(("", ToolStart(i, Quote(b.id), Quote(b.name))))
      else if b.kind == "text" && b.text != "" then Some(("", Content(Quote(b.text))))
      else None
    case BlockDelta(i, Some(d)) =>
      if d.kind == "text_delta" then if d.text.None? then None else Some(("", Content(Quote(d.text.value))))
      else if d.kind == "input_json_delta" then
        if d.partialJson.None? || i < 0 then None else Some(("", ToolArgs(i, Quote(d.partialJson.value))))
      else if d.kind == "thinking_delta" then
        if d.thinking.None? then None else Some(("", Reasoning(Quote(d.thinking.value))))
      else None
    case MessageDelta(Some(Some(r))) => Some(("", Finish(NormalStopQuoted(Quote(r)))))
    case _ => None
  }

  lemma {:induction false} EscapedLength(s: string)
    ensures |Escaped(s)| >= |s|
  {
    if s != "" {
      EscapedStep(s);
      EscapedLength(s[1..]);
    }
  }

  lemma KeysAreWords()
    ensures Words("type") && Words("text") && Words("id") && Words("name") && Words("model") && Words("thinking")
    ensures Words("partial_json") && Words("stop_reason") && Words("tool_use") && Words("text_delta")
    ensures Words("input_json_delta") && Words("thinking_delta")
  {
  }

  /** The searches see the payload's own keys. */
  lemma SearchesAreLookups(d: Doc)
    requires Printed(d)
    ensures var data := ['{'] + Print(d);
            && (forall w :: Words(w) ==> (Typed(data, w) <==> Has(d, "type", w)))
            && (forall k :: Words(k) && k != "" ==> Under(data, k) == Quoted(ValueOf(d, k)))
  {
    KeysAreWords();
    forall w | Words(w) ensures Typed(['{'] + Print(d), w) <==> Has(d, "type", w) { ContainsIsHas(d, "type", w); }
    forall k | Words(k) && k != "" ensures Under(['{'] + Print(d), k) == Quoted(ValueOf(d, k)) { ExtractedIsValue(d, k); }
  }

  /** What the searches would find if they were lookups. */
  function Looked(p: Payload, d: Doc): Splice {
    match p
    case MessageStart(_) => SpliceStart(Quoted(ValueOf(d, "model")))
    case BlockStart(index, _) =>
      SpliceBlock(index, Has(d, "type", "tool_use"), Has(d, "type", "text"),
                  Quoted(ValueOf(d, "id")), Quoted(ValueOf(d, "name")), Quoted(ValueOf(d, "text")))
    case BlockDelta(index, _) =>
      SpliceDelta(index, Has(d, "type", "text_delta"), Has(d, "type", "input_json_delta"), Has(d, "type", "thinking_delta"),
                  Quoted(ValueOf(d, "text")), Quoted(ValueOf(d, "partial_json")), Quoted(ValueOf(d, "thinking")))
    case MessageDelta(_) => SpliceFinish(Quoted(ValueOf(d, "stop_reason")))
  }

  lemma SearchedIsLooked(p: Payload, d: Doc)
    requires Printed(d)
    ensures Searched(p, ['{'] + Print(d)) == Looked(p, d)
  {
    KeysAreWords();
    SearchesAreLookups(d);
  }

  lemma WrappedFacts(i: int, key: string, after: string, d: Doc)
    requires Words(key) && Printed(d) && |after| > 1 && after[0] == ':' && !Blank(after[1]) && '"' !in after
    ensures var w := More("index", ":" + PrintInt(i) + ",", More(key, after, d));
            && Printed(w)
            && (forall k :: k != "index" && k != key ==> ValueOf(w, k) == ValueOf(d, k))
            && (forall k, v :: Has(w, k, v) <==> Has(d, k, v))
  {
    OuterFacts(key, after, d);
    IndexFacts(i, More(key, after, d));
  }

  predicate Wrapper(k: string) { k == "index" || k == "content_block" || k == "delta" || k == "message" || k == "type" }

  predicate EventName(v: string) {
    v == "message_start" || v == "content_block_start" || v == "content_block_delta" || v == "message_delta"
  }

  lemma KeysAreNotWrappers()
    ensures !Wrapper("text") && !Wrapper("id") && !Wrapper("name") && !Wrapper("model")
    ensures !Wrapper("thinking") && !Wrapper("partial_json") && !Wrapper("stop_reason")
  {
  }

  lemma KindsAreNotEvents()
    ensures !EventName("tool_use") && !EventName("text") && !EventName("text_delta")
    ensures !EventName("input_json_delta") && !EventName("thinking_delta")
  {
  }

  /** What the fast path looks for is in `d`, whatever `w` wraps around it. */
  predicate Inside(w: Doc, d: Doc, k: string, v: string) {
    (Wrapper(k) || ValueOf(w, k) == ValueOf(d, k)) && (EventName(v) || (Has(w, "type", v) <==> Has(d, "type", v)))
  }

  /** A lookup goes through the wrapper. */
  lemma LookInside(p: Payload, w: Doc, d: Doc)
    requires forall k, v :: Inside(w, d, k, v)
    ensures Looked(p, w) == Looked(p, d)
  {
    LookupsInside(w, d);
  }

  lemma LookupsInside(w: Doc, d: Doc)
    requires forall k, v :: Inside(w, d, k, v)
    ensures ValueOf(w, "model") == ValueOf(d, "model") && ValueOf(w, "id") == ValueOf(d, "id")
    ensures ValueOf(w, "name") == ValueOf(d, "name") && ValueOf(w, "text") == ValueOf(d, "text")
    ensures ValueOf(w, "partial_json") == ValueOf(d, "partial_json") && ValueOf(w, "thinking") == ValueOf(d, "thinking")
    ensures ValueOf(w, "stop_reason") == ValueOf(d, "stop_reason")
    ensures Has(w, "type", "tool_use") == Has(d, "type", "tool_use") && Has(w, "type", "text") == Has(d, "type", "text")
    ensures Has(w, "type", "text_delta") == Has(d, "type", "text_delta")
    ensures Has(w, "type", "input_json_delta") == Has(d, "type", "input_json_delta")
    ensures Has(w, "type", "thinking_delta") == Has(d, "type", "thinking_delta")
  {
    KeysAreNotWrappers();
    KindsAreNotEvents();
    assert Inside(w, d, "model", "tool_use") && Inside(w, d, "id", "text") && Inside(w, d, "name", "text_delta");
    assert Inside(w, d, "text", "input_json_delta") && Inside(w, d, "partial_json", "thinking_delta");
    assert Inside(w, d, "thinking", "text") && Inside(w, d, "stop_reason", "text");
  }

  lemma BlockLook(i: int, b: Block)
    ensures Looked(BlockStart(i, Some(b)), BlockDoc(b)) == Expected(BlockStart(i, Some(b)))
  {
    BlockFacts(b);
    EscapedLength(b.text);
  }

  lemma DeltaLook(i: int, d: Delta)
    ensures Looked(BlockDelta(i, Some(d)), DeltaDoc(d)) == Expected(BlockDelta(i, Some(d)))
  {
    DeltaFacts(d);
  }

  lemma LookInBlock(i: int, block: Option<Block>)
    ensures var p := BlockStart(i, block); Printed(PayloadDoc(p)) && Looked(p, PayloadDoc(p)) == Expected(p)
  {
    var p := BlockStart(i, block);
    if block.None? {
      WrappedFacts(i, "content_block", ":null}", End);
      LookInside(p, PayloadDoc(p), End);
    } else {
      BlockFacts(block.value);
      WrappedFacts(i, "content_block", ":{", BlockDoc(block.value));
      LookInside(p, PayloadDoc(p), BlockDoc(block.value));
      BlockLook(i, block.value);
    }
  }

  lemma LookInDelta(i: int, delta: Option<Delta>)
    ensures var p := BlockDelta(i, delta); Printed(PayloadDoc(p)) && Looked(p, PayloadDoc(p)) == Expected(p)
  {
    var p := BlockDelta(i, delta);
    if delta.None? {
      WrappedFacts(i, "delta", ":null}", End);
      LookInside(p, PayloadDoc(p), End);
    } else {
      DeltaFacts(delta.value);
      WrappedFacts(i, "delta", ":{", DeltaDoc(delta.value));
      LookInside(p, PayloadDoc(p), DeltaDoc(delta.value));
      DeltaLook(i, delta.value);
    }
  }

  lemma LookInMessage(p: Payload)
    requires p.MessageStart? || p.MessageDelta?
    ensures Printed(PayloadDoc(p)) && Looked(p, PayloadDoc(p)) == Expected(p)
  {
    var t := Tail("}}", End);
    match p
    case MessageStart(m) =>
      if m.Some? {
        FieldFacts("model", m.value, t);
        OuterFacts("message", ":{", Field("model", m.value, t));
      }
    case MessageDelta(stop) =>
      if stop.Some? && stop.value.Some? {
        FieldFacts("stop_reason", stop.value.value, t);
        OuterFacts("delta", ":{", Field("stop_reason", stop.value.value, t));
      }
  }

  /** On a printed payload, the first match of every marker is the payload's own key. */
  lemma SearchedIsExpected(p: Payload)
    ensures Searched(p, Wire(p)) == Expected(p)
  {
    match p {
      case BlockStart(i, block) => LookInBlock(i, block);
      case BlockDelta(i, delta) => LookInDelta(i, delta);
      case MessageStart(_) => LookInMessage(p);
      case MessageDelta(_) => LookInMessage(p);
    }
    SearchedIsLooked(p, PayloadDoc(p));
  }

  // ----- stop reasons -----

  lemma QuoteIsInjective(s: string, t: string)
    requires Quote(s) == Quote(t)
    ensures s == t
  {
    assert Quote(s)[1..|Quote(s)| - 1] == Escaped(s);
    assert Quote(t)[1..|Quote(t)| - 1] == Escaped(t);
    EscapedIsInjective(s, t);
  }

  lemma QuoteIsFixed(r: string, s: string)
    requires forall i :: 0 <= i < |s| ==> Clean(s[i])
    ensures Quote(r) == Fixed(s) <==> r == s
  {
    FixedIsQuote(s);
    if Quote(r) == Fixed(s) { QuoteIsInjective(r, s); }
  }

  /** What the reasons are mapped to; one that is not known stays. */
  lemma StopReasonsAre(r: string)
    ensures r in {"", "stop", "end_turn"} ==> NormalStop(r) == "stop"
    ensures r == "tool_use" ==> NormalStop(r) == "tool_calls"
    ensures r == "max_tokens" ==> NormalStop(r) == "length"
    ensures r == "refusal" ==> NormalStop(r) == "content_filter"
    ensures r !in {"", "stop", "end_turn", "tool_use", "max_tokens", "refusal"} ==> NormalStop(r) == r
  {
    if r == "tool_use" { assert r[0] == 't'; }
    if r == "max_tokens" { assert r[0] == 'm'; }
    if r == "refusal" { assert r[0] == 'r'; }
  }

  /** The mapping of quoted reasons is the mapping of reasons. */
  lemma StopsAgree(r: string)
    ensures NormalStopQuoted(Quote(r)) == Quote(NormalStop(r))
  {
    KnownStops(r);
    MappedStops();
  }

  lemma KnownStops(r: string)
    ensures (Quote(r) == "\"\"" <==> r == "") && (Quote(r) == "\"stop\"" <==> r == "stop")
    ensures (Quote(r) == "\"end_turn\"" <==> r == "end_turn") && (Quote(r) == "\"tool_use\"" <==> r == "tool_use")
    ensures (Quote(r) == "\"max_tokens\"" <==> r == "max_tokens") && (Quote(r) == "\"refusal\"" <==> r == "refusal")
  {
    assert Fixed("") == "\"\"" && Fixed("stop") == "\"stop\"" && Fixed("end_turn") == "\"end_turn\"";
    assert Fixed("tool_use") == "\"tool_use\"" && Fixed("max_tokens") == "\"max_tokens\"" && Fixed("refusal") == "\"refusal\"";
    QuoteIsFixed(r, "");
    QuoteIsFixed(r, "stop");
    QuoteIsFixed(r, "end_turn");
    QuoteIsFixed(r, "tool_use");
    QuoteIsFixed(r, "max_tokens");
    QuoteIsFixed(r, "refusal");
  }

  lemma MappedStops()
    ensures Quote("stop") == "\"stop\"" && Quote("tool_calls") == "\"tool_calls\""
    ensures Quote("length") == "\"length\"" && Quote("content_filter") == "\"content_filter\""
  {
    FixedIsQuote("stop");
    FixedIsQuote("tool_calls");
    FixedIsQuote("length");
    FixedIsQuote("content_filter");
    assert Fixed("stop") == "\"stop\"" && Fixed("tool_calls") == "\"tool_calls\"";
    assert Fixed("length") == "\"length\"" && Fixed("content_filter") == "\"content_filter\"";
  }

  /** Only the slow path trims. */
  lemma TrimmingMatters(r: string)
    ensures NormalStop(r) == NormalStop(Trim(r)) <==> Trimmed(r)
  {
    TrimIsTrimmed(r);
    TrimIsTrimmed(Trim(r));
  }

  // ----- message ids -----

  /** The shortcut for ids prints what the encoder prints: it forgets the HTML escapes, unless
      something else sends the id to the encoder. */
  predicate IdFaithful(id: string) {
    || (exists i :: 0 <= i < |id| && Special(id[i]))
    || (forall i :: 0 <= i < |id| ==> !Html(id[i]))
  }

  lemma {:induction false} VerbatimIsEscaped(s: string)
    requires forall i :: 0 <= i < |s| ==> Verbatim(s[i])
    ensures Escaped(s) == s
  {
    if s != "" {
      EscapedStep(s);
      VerbatimIsEscaped(s[1..]);
    }
  }

  lemma {:induction false} RawDiffers(s: string, i: nat, x: string, y: string)
    requires i < |s| && Html(s[i]) && (forall j :: 0 <= j < |s| ==> !Special(s[j]))
    ensures s + x != Escaped(s) + y
  {
    EscapedStep(s);
    var e := EscapedChar(s[0]);
    assert (s + x)[0] == s[0] && (Escaped(s) + y)[0] == e[0];
    if !Html(s[0]) {
      assert e == [s[0]];
      RawDiffers(s[1..], i - 1, x, y);
      assert (s + x)[1..] == s[1..] + x;
      assert (Escaped(s) + y)[1..] == Escaped(s[1..]) + y;
    }
  }

  lemma IdsAgree(id: string, x: string, y: string)
    ensures IdFaithful(id) ==> AppendedString(id) == Quote(id)
    ensures !IdFaithful(id) ==> AppendedString(id) + x != Quote(id) + y
  {
    if forall i :: 0 <= i < |id| ==> !Special(id[i]) {
      if IdFaithful(id) { VerbatimIsEscaped(id); } else { MisprintedId(id, x, y); }
    }
  }

  lemma MisprintedId(id: string, x: string, y: string)
    requires !IdFaithful(id)
    ensures AppendedString(id) + x != Quote(id) + y
  {
    var i :| 0 <= i < |id| && Html(id[i]);
    RawDiffers(id, i, ['"'] + x, ['"'] + y);
    DiffersInQuotes(id, Escaped(id), x, y);
  }

  lemma DiffersInQuotes(a: string, b: string, x: string, y: string)
    requires a + (['"'] + x) != b + (['"'] + y)
    ensures ['"'] + (a + ['"']) + x != ['"'] + (b + ['"']) + y
  {
    assert (['"'] + (a + ['"']) + x)[1..] == a + (['"'] + x);
    assert (['"'] + (b + ['"']) + y)[1..] == b + (['"'] + y);
  }

  // ----- fast is slow -----

  /** What both paths write behind the message id. */
  function Tailing(created: int, quotedModel: string, rest: string): string {
    OBJECT_CREATED + PrintInt(created) + MODEL_PREFIX + quotedModel + (CHOICES_PREFIX + rest)
  }

  lemma SlowIs(msgId: string, created: int, p: Payload)
    requires Decoded(p).Some?
    ensures var (model, delta, finish) := Decoded(p).value;
            Slow(msgId, created, p)
            == Some(ID_PREFIX + (Quote(msgId) + Tailing(created, Quote(model), Rest(PrintDelta(delta), Quoted(finish)))))
  {
    var (model, delta, finish) := Decoded(p).value;
    ChunkIsPrefixed(Quote(msgId), PrintInt(created), Quote(model), PrintDelta(delta), Quoted(finish));
    RegroupTail(ID_PREFIX, Quote(msgId), OBJECT_CREATED, PrintInt(created), MODEL_PREFIX, Quote(model),
                CHOICES_PREFIX + Rest(PrintDelta(delta), Quoted(finish)));
  }

  lemma RegroupTail(a: string, b: string, c: string, d: string, e: string, f: string, g: string)
    ensures a + b + c + d + e + f + g == a + (b + (c + d + e + f + g))
  {
  }

  lemma SpliceIs(msgId: string, created: int, model: string, body: Body)
    ensures Prefix(msgId, created, model) + Spliced(body)
            == ID_PREFIX + (AppendedString(msgId) + Tailing(created, if model == "" then "\"\"" else model, Spliced(body)))
  {
    var m := if model == "" then "\"\"" else model;
    Assoc(ID_PREFIX + AppendedString(msgId) + OBJECT_CREATED + PrintInt(created) + MODEL_PREFIX + m, CHOICES_PREFIX, Spliced(body));
    RegroupTail(ID_PREFIX, AppendedString(msgId), OBJECT_CREATED, PrintInt(created), MODEL_PREFIX, m, CHOICES_PREFIX + Spliced(body));
  }

  predicate IndexOk(p: Payload) { p.BlockStart? || p.BlockDelta? ==> p.index >= 0 }

  predicate ReasonOk(p: Payload) { p.MessageDelta? && p.stop.Some? && p.stop.value.Some? ==> Trimmed(p.stop.value.value) }

  /** Both paths mean the same model, delta and finish reason, apart from the trimming. */
  lemma PathsAgree(p: Payload)
    requires Expected(p).Some? && IndexOk(p)
    ensures Decoded(p).Some?
    ensures var ((quoted, body), (model, delta, finish)) := (Expected(p).value, Decoded(p).value);
            && (if quoted == "" then "\"\"" else quoted) == Quote(model)
            && (!p.MessageDelta? ==> Rest(PrintDelta(delta), Quoted(finish)) == Spliced(body))
  {
    NothingIsFixed();
    match p
    case MessageStart(_) => RoleIsSpliced();
    case BlockStart(i, Some(b)) =>
      if b.kind == "text" { ContentIsSpliced(b.text); } else { CallIsSpliced(i, b.id, b.name); }
    case BlockDelta(i, Some(d)) =>
      if d.kind == "text_delta" { ContentIsSpliced(d.text.value); }
      else if d.kind == "input_json_delta" { ArgsAreSpliced(i, d.partialJson.value); }
      else { ReasoningIsSpliced(d.thinking.value); }
    case MessageDelta(_) =>
  }

  lemma FinishAgrees(r: string)
    ensures var p := MessageDelta(Some(Some(r)));
            && Spliced(Expected(p).value.1) == Spliced(Finish(Quote(NormalStop(r))))
            && Rest(PrintDelta(Decoded(p).value.1), Quoted(Decoded(p).value.2)) == Spliced(Finish(Quote(NormalStop(Trim(r)))))
  {
    StopsAgree(r);
    FinishIsSpliced(Quote(NormalStop(Trim(r))));
  }

  lemma FinishesDiffer(r: string, created: int, model: string)
    ensures Tailing(created, model, Spliced(Finish(Quote(NormalStop(r)))))
            == Tailing(created, model, Spliced(Finish(Quote(NormalStop(Trim(r))))))
            <==> Trimmed(r)
  {
    TrimmingMatters(r);
    var a, q, q' := OBJECT_CREATED + PrintInt(created) + MODEL_PREFIX + model, Quote(NormalStop(r)), Quote(NormalStop(Trim(r)));
    if Tailing(created, model, Spliced(Finish(q))) == Tailing(created, model, Spliced(Finish(q'))) {
      SameMiddle(a, CHOICES_PREFIX, MESSAGE_DELTA_PREFIX, q, q', MESSAGE_DELTA_SUFFIX);
      QuoteIsInjective(NormalStop(r), NormalStop(Trim(r)));
    }
  }

  lemma SameMiddle(a: string, b: string, c: string, q: string, q': string, d: string)
    requires a + (b + (c + q + d)) == a + (b + (c + q' + d))
    ensures q == q'
  {
    var l, l' := a + (b + (c + q + d)), a + (b + (c + q' + d));
    assert l == (a + b + c) + q + d && l' == (a + b + c) + q' + d;
    assert |q| == |q'|;
    var n := |a + b + c|;
    assert q == l[n..n + |q|] && q' == l'[n..n + |q|];
  }

  /** Whenever the fast path answers, it answers what the slow path prints, except for a negative
      index, a stop reason with white space around it, and a message id the shortcut misprints. */
  lemma FastIsSlowExactly(msgId: string, created: int, p: Payload)
    requires Fast(msgId, created, p).Some?
    ensures Fast(msgId, created, p) == Slow(msgId, created, p) <==> IdFaithful(msgId) && IndexOk(p) && ReasonOk(p)
  {
    SearchedIsExpected(p);
    var (model, body) := Expected(p).value;
    SpliceIs(msgId, created, model, body);
    if IndexOk(p) {
      PathsAgree(p);
      SlowIs(msgId, created, p);
      CompareTails(msgId, created, p);
    }
  }

  function TextAt(i: int, text: string): Payload { BlockDelta(i, Some(Delta("text_delta", Some(text), None, None))) }

  /** Each of the three does happen: an id that needs no escape but HTML's, ... */
  lemma AngleBracketDiffers(created: int, text: string)
    ensures Fast(['<'], created, TextAt(0, text)).Some?
    ensures Fast(['<'], created, TextAt(0, text)) != Slow(['<'], created, TextAt(0, text))
  {
    SearchedIsExpected(TextAt(0, text));
    assert ['<'][0] == '<' && !IdFaithful(['<']);
    FastIsSlowExactly(['<'], created, TextAt(0, text));
  }

  /** ... a negative index on text, ... */
  lemma NegativeIndexDiffers(msgId: string, created: int, text: string, i: int)
    requires i < 0
    ensures Fast(msgId, created, TextAt(i, text)).Some? && Slow(msgId, created, TextAt(i, text)).None?
  {
    SearchedIsExpected(TextAt(i, text));
  }

  /** ... and a stop reason of white space. */
  lemma SpaceDiffers(msgId: string, created: int)
    ensures var p := MessageDelta(Some(Some([' '])));
      Fast(msgId, created, p).Some? && Fast(msgId, created, p) != Slow(msgId, created, p)
  {
    SearchedIsExpected(MessageDelta(Some(Some([' ']))));
    FastIsSlowExactly(msgId, created, MessageDelta(Some(Some([' ']))));
  }

  lemma CompareTails(msgId: string, created: int, p: Payload)
    requires Expected(p).Some? && IndexOk(p) && Decoded(p).Some?
    ensures var ((quoted, body), (model, delta, finish)) := (Expected(p).value, Decoded(p).value);
            var m := if quoted == "" then "\"\"" else quoted;
            ID_PREFIX + (AppendedString(msgId) + Tailing(created, m, Spliced(body)))
            == ID_PREFIX + (Quote(msgId) + Tailing(created, Quote(model), Rest(PrintDelta(delta), Quoted(finish))))
            <==> IdFaithful(msgId) && ReasonOk(p)
  {
    PathsAgree(p);
    var ((quoted, body), (model, delta, finish)) := (Expected(p).value, Decoded(p).value);
    var x, y := Tailing(created, Quote(model), Spliced(body)), Tailing(created, Quote(model), Rest(PrintDelta(delta), Quoted(finish)));
    assert x == y <==> ReasonOk(p) by {
      if p.MessageDelta? {
        FinishAgrees(p.stop.value.value);
        FinishesDiffer(p.stop.value.value, created, Quote(model));
      }
    }
    CompareBehindId(msgId, x, y);
  }

  lemma CompareBehindId(msgId: string, x: string, y: string)
    ensures ID_PREFIX + (AppendedString(msgId) + x) == ID_PREFIX + (Quote(msgId) + y) <==> IdFaithful(msgId) && x == y
  {
    IdsAgree(msgId, x, y);
    SameAfter(ID_PREFIX, AppendedString(msgId) + x, Quote(msgId) + y);
    if IdFaithful(msgId) { SameAfter(Quote(msgId), x, y); }
  }

  lemma SameAfter(a: string, x: string, y: string)
    ensures a + x == a + y <==> x == y
  {
    assert (a + x)[|a|..] == x && (a + y)[|a|..] == y;
  }

  /** `AppendOpenAIChunk` on an empty buffer. */
  function Append(msgId: string, created: int, p: Payload): Option<string> {
    if Fast(msgId, created, p).Some? then Fast(msgId, created, p) else Slow(msgId, created, p)
  }

  /** The fast path is invisible: a caller sees the slow path's bytes, or a refusal. */
  lemma ChunksAreTheEncoders(msgId: string, created: int, p: Payload)
    requires IdFaithful(msgId) && IndexOk(p) && ReasonOk(p)
    ensures Append(msgId, created, p) == Slow(msgId, created, p)
  {
    if Fast(msgId, created, p).Some? { FastIsSlowExactly(msgId, created, p); }
  }

  // ----- the code -----

  /** `extractJSONStringValueAfter`: one scan with a moving index and an escape flag. */
  method ExtractJSONStringValueAfter(data: string, marker: string) returns (quoted: Option<string>)
    ensures quoted == Extracted(data, marker)
  {
    CutAfterIsIndex(data, marker);
    var found := Index(data, marker);
    if found.None? {
      return None;
    }
    quoted := LiteralAt(data, found.value + |marker|);
  }

  method LiteralAt(data: string, from: nat) returns (quoted: Option<string>)
    requires from <= |data|
    ensures quoted == Literal(data[from..])
  {
    var idx := from;
    while idx < |data| && Blank(data[idx])
      invariant from <= idx <= |data|
      invariant SkipBlanks(data[idx..]) == SkipBlanks(data[from..])
    {
      assert data[idx..][1..] == data[idx + 1..];
      idx := idx + 1;
    }
    if idx >= |data| || data[idx] != '"' {
      return None;
    }
    var end := StringEnd(data, idx + 1);
    assert data[idx..][1..] == data[idx + 1..];
    if end.None? {
      return None;
    }
    assert data[idx..][..end.value - idx] == data[idx..end.value];
    return Some(data[idx..end.value]);
  }

  method StringEnd(data: string, from: nat) returns (end: Option<nat>)
    requires from <= |data|
    ensures end == Shifted(Closing(data[from..]), from) && (end.Some? ==> from < end.value <= |data|)
  {
    var idx, escaped := from, false;
    while idx < |data|
      invariant from <= idx <= |data|
      invariant Closing(data[from..]) == Shifted(Scan(data[idx..], escaped), idx - from)
    {
      assert data[idx..][1..] == data[idx + 1..];
      ScanStep(data[idx..], escaped);
      if escaped {
        escaped := false;
      } else if data[idx] == '\\' {
        escaped := true;
      } else if data[idx] == '"' {
        return Some(idx + 1);
      }
      idx := idx + 1;
    }
    return None;
  }

  /** The rest of a scan that may have just read a backslash. */
  function Scan(s: string, escaped: bool): Option<nat> {
    if escaped then if s == "" then None else Shifted(Closing(s[1..]), 1) else Closing(s)
  }

  function Shifted(n: Option<nat>, k: nat): Option<nat> { if n.None? then None else Some(n.value + k) }

  lemma ScanStep(s: string, escaped: bool)
    requires s != ""
    ensures escaped ==> Scan(s, true) == Shifted(Scan(s[1..], false), 1)
    ensures !escaped && s[0] == '\\' ==> Scan(s, false) == Shifted(Scan(s[1..], true), 1)
    ensures !escaped && s[0] != '\\' && s[0] != '"' ==> Scan(s, false) == Shifted(Scan(s[1..], false), 1)
  {
    if |s| > 1 { assert s[1..][1..] == s[2..]; }
  }

  /** `-v` on an int64. */
  function Negated(v: int): int { if v == MIN_INT64 then v else -v }

  /** `decimalLenInt64` */
  method DecimalLenInt64(value: int) returns (n: nat)
    requires IsInt64(value)
    ensures n == |PrintInt(value)|
  {
    if value == 0 {
      return 1;
    }
    var v := value;
    n := 0;
    if v < 0 {
      n := 1;
      if v == MIN_INT64 {
        LongestInt64();
        return 20;
      }
      v := Negated(v);
    }
    while v > 0
      invariant 0 <= v && (v == 0 ==> n == |PrintInt(value)|)
      invariant v > 0 ==> n + |PrintNat(v)| == |PrintInt(value)|
    {
      n := n + 1;
      v := v / 10;
    }
  }

  function Power(k: nat): nat { if k == 0 then 1 else 10 * Power(k - 1) }

  lemma {:induction false} PowerSum(j: nat, k: nat)
    ensures Power(j + k) == Power(j) * Power(k)
  {
    if j > 0 { PowerSum(j - 1, k); }
  }

  lemma {:induction false} DigitCount(n: nat, k: nat)
    requires Power(k) <= n < 10 * Power(k)
    ensures |PrintNat(n)| == k + 1
  {
    if k > 0 { DigitCount(n / 10, k - 1); }
  }

  lemma LongestInt64()
    ensures |PrintInt(MIN_INT64)| == 20
  {
    PowerSum(2, 2);
    PowerSum(4, 4);
    PowerSum(8, 8);
    PowerSum(16, 2);
    DigitCount(-MIN_INT64, 18);
  }

  // ----- capacity -----

  function PrefixEstimate(msgId: string, created: int, quotedModel: string): nat {
    |ID_PREFIX| + |msgId| + 2 + |OBJECT_CREATED| + |PrintInt(created)| + |MODEL_PREFIX|
    + (if quotedModel == "" then 2 else |quotedModel|) + |CHOICES_PREFIX|
  }

  function BodyEstimate(b: Body): nat {
    match b
    case Start => |MESSAGE_START_SUFFIX|
    case Content(q) => |TEXT_PREFIX| + |q| + |CONTENT_SUFFIX|
    case Reasoning(q) => |THINKING_PREFIX| + |q| + |CONTENT_SUFFIX|
    case ToolArgs(i, q) => |TOOL_INDEX_PREFIX| + |PrintInt(i)| + |TOOL_ARGS_PREFIX| + |q| + |TOOL_ARGS_SUFFIX|
    case ToolStart(i, id, name) =>
      |TOOL_INDEX_PREFIX| + |PrintInt(i)| + |TOOL_START_PREFIX| + |id| + |TOOL_NAME_PREFIX| + |name| + |TOOL_START_SUFFIX|
    case Finish(q) => |MESSAGE_DELTA_PREFIX| + |q| + |MESSAGE_DELTA_SUFFIX|
  }

  /** The bytes reserved are the bytes written, for every id that is not sent to the encoder. */
  lemma EstimateIsExact(msgId: string, created: int, model: string, b: Body)
    requires forall i :: 0 <= i < |msgId| ==> !Special(msgId[i])
    ensures PrefixEstimate(msgId, created, model) + BodyEstimate(b) == |Prefix(msgId, created, model) + Spliced(b)|
  {
  }

  /** A Go byte slice: its contents, its capacity and how often it was moved to a larger array. */
  class Buffer {
    var contents: string
    var capacity: nat
    var moves: nat

    predicate Valid()
      reads this
    {
      |contents| <= capacity
    }

    constructor (capacity: nat)
      ensures Valid() && contents == "" && this.capacity == capacity && moves == 0
    {
      contents, this.capacity, moves := "", capacity, 0;
    }

    method Append(s: string)
      requires Valid()
      modifies this
      ensures Valid() && contents == old(contents) + s
      ensures if |old(contents)| + |s| <= old(capacity) then capacity == old(capacity) && moves == old(moves)
              else moves == old(moves) + 1
    {
      if |contents| + |s| > capacity {
        capacity, moves := |contents| + |s| + capacity, moves + 1;
      }
      contents := contents + s;
    }

    /** `ensureOpenAIChunkCapacity` */
    method Ensure(extra: nat)
      requires Valid()
      modifies this
      ensures Valid() && contents == old(contents) && capacity >= |contents| + extra
      ensures moves == if old(capacity) - |contents| >= extra then old(moves) else old(moves) + 1
    {
      if extra > 0 && capacity - |contents| < extra {
        capacity, moves := |contents| + extra, moves + 1;
      }
    }

    method Append3(a: string, b: string, c: string)
      requires Valid()
      modifies this
      ensures Valid() && contents == old(contents) + (a + b + c)
      ensures |contents| <= old(capacity) ==> capacity == old(capacity) && moves == old(moves)
    {
      Append(a);
      Append(b);
      Append(c);
    }

    method Append5(a: string, b: string, c: string, d: string, e: string)
      requires Valid()
      modifies this
      ensures Valid() && contents == old(contents) + (a + b + c + d + e)
      ensures |contents| <= old(capacity) ==> capacity == old(capacity) && moves == old(moves)
    {
      Append3(a, b, c);
      Append(d);
      Append(e);
    }

    method Append7(a: string, b: string, c: string, d: string, e: string, f: string, g: string)
      requires Valid()
      modifies this
      ensures Valid() && contents == old(contents) + (a + b + c + d + e + f + g)
      ensures |contents| <= old(capacity) ==> capacity == old(capacity) && moves == old(moves)
    {
      Append5(a, b, c, d, e);
      Append(f);
      Append(g);
    }

    method AppendOpenAIChunkPrefix(msgId: string, created: int, quotedModel: string)
      requires Valid()
      modifies this
      ensures Valid() && contents == old(contents) + Prefix(msgId, created, quotedModel)
      ensures |contents| <= old(capacity) ==> capacity == old(capacity) && moves == old(moves)
    {
      Append7(ID_PREFIX, AppendedString(msgId), OBJECT_CREATED, PrintInt(created), MODEL_PREFIX,
              if quotedModel == "" then "\"\"" else quotedModel, CHOICES_PREFIX);
    }

    method AppendBody(b: Body)
      requires Valid()
      modifies this
      ensures Valid() && contents == old(contents) + Spliced(b)
      ensures |contents| <= old(capacity) ==> capacity == old(capacity) && moves == old(moves)
    {
      match b
      case Start => Append(MESSAGE_START_SUFFIX);
      case Content(q) => Append3(TEXT_PREFIX, q, CONTENT_SUFFIX);
      case Reasoning(q) => Append3(THINKING_PREFIX, q, CONTENT_SUFFIX);
      case ToolArgs(i, q) => Append5(TOOL_INDEX_PREFIX, PrintInt(i), TOOL_ARGS_PREFIX, q, TOOL_ARGS_SUFFIX);
      case ToolStart(i, id, name) =>
        Append7(TOOL_INDEX_PREFIX, PrintInt(i), TOOL_START_PREFIX, id, TOOL_NAME_PREFIX, name, TOOL_START_SUFFIX);
      case Finish(q) => Append3(MESSAGE_DELTA_PREFIX, q, MESSAGE_DELTA_SUFFIX);
    }

    /** The six chunk printers: reserve, prefix, body.  For an id that is written as it stands the
        buffer is moved at most once, by the reservation. */
    method AppendOpenAIChunk(msgId: string, created: int, quotedModel: string, b: Body)
      requires Valid() && IsInt64(created)
      modifies this
      ensures Valid() && contents == old(contents) + (Prefix(msgId, created, quotedModel) + Spliced(b))
      ensures (forall i :: 0 <= i < |msgId| ==> !Special(msgId[i])) ==>
                moves == old(moves) + if |contents| <= old(capacity) then 0 else 1
    {
      if forall i :: 0 <= i < |msgId| ==> !Special(msgId[i]) { EstimateIsExact(msgId, created, quotedModel, b); }
      Reserve(msgId, created, quotedModel, b);
      AppendPrefixAndBody(msgId, created, quotedModel, b);
    }

    method Reserve(msgId: string, created: int, quotedModel: string, b: Body)
      requires Valid() && IsInt64(created)
      modifies this
      ensures Valid() && contents == old(contents)
      ensures var n := PrefixEstimate(msgId, created, quotedModel) + BodyEstimate(b);
        && capacity >= |contents| + n
        && moves == if old(capacity) - |contents| >= n then old(moves) else old(moves) + 1
    {
      var n := DecimalLenInt64(created);
      Ensure(|ID_PREFIX| + |msgId| + 2 + |OBJECT_CREATED| + n + |MODEL_PREFIX|
             + (if quotedModel == "" then 2 else |quotedModel|) + |CHOICES_PREFIX| + BodyEstimate(b));
    }

    method AppendPrefixAndBody(msgId: string, created: int, quotedModel: string, b: Body)
      requires Valid()
      modifies this
      ensures Valid() && contents == old(contents) + (Prefix(msgId, created, quotedModel) + Spliced(b))
      ensures |contents| <= old(capacity) ==> capacity == old(capacity) && moves == old(moves)
    {
      Assoc(contents, Prefix(msgId, created, quotedModel), Spliced(b));
      AppendOpenAIChunkPrefix(msgId, created, quotedModel);
      AppendBody(b);
    }
  }
}
