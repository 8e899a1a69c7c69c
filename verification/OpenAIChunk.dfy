/** internal/adapter/openai_sse.go: the structs of a chat completion chunk as `encoding/json` prints
    them, and the same bytes as the fast path splices them from constants. */
module OpenAIChunk {
  import opened Text
  import opened JsonText

  // ----- the chunks -----

  function NonEmpty(s: string): Option<string> { if s == "" then None else Some(s) }

  datatype ToolCall = ToolCall(index: int, id: string, kind: string, name: Option<string>, arguments: string)

  datatype ChunkDelta =
    ChunkDelta(role: Option<string>, content: Option<string>, reasoning: Option<string>, tools: seq<ToolCall>)

  datatype Chunk = Chunk(id: string, kind: string, created: int, model: string, delta: ChunkDelta, finish: Option<string>)

  function Member(key: string, value: string): string { Marker(key) + value }

  function Present(key: string, value: Option<string>): seq<string> {
    if value.Some? then [Member(key, Quote(value.value))] else []
  }

  function Joined(members: seq<string>): string {
    if members == [] then "" else if |members| == 1 then members[0] else members[0] + "," + Joined(members[1..])
  }

  function Object(members: seq<string>): string { "{" + Joined(members) + "}" }

  function PrintTool(t: ToolCall): string {
    Object([Member("index", PrintInt(t.index))] + Present("id", NonEmpty(t.id)) + Present("type", NonEmpty(t.kind))
           + [Member("function", Object(Present("name", t.name) + [Member("arguments", Quote(t.arguments))]))])
  }

  function PrintTools(tools: seq<ToolCall>): string {
    "[" + Joined(seq(|tools|, i requires 0 <= i < |tools| => PrintTool(tools[i]))) + "]"
  }

  function PrintDelta(d: ChunkDelta): string {
    Object(Present("role", d.role) + Present("content", d.content) + Present("reasoning_content", d.reasoning)
           + (if d.tools == [] then [] else [Member("tool_calls", PrintTools(d.tools))]))
  }

  function ChoiceText(delta: string, finish: Option<string>): string {
    Object([Member("index", "0"), Member("delta", delta)]
           + if finish.Some? then [Member("finish_reason", finish.value)] else [])
  }

  function ChunkText(id: string, kind: string, created: string, model: string, choice: string): string {
    Object([Member("id", id), Member("object", kind), Member("created", created), Member("model", model),
            Member("choices", "[" + choice + "]")])
  }

  /** `json.Marshal` of a chunk with its one choice. */
  function PrintChunk(c: Chunk): string {
    ChunkText(Quote(c.id), Quote(c.kind), PrintInt(c.created), Quote(c.model),
              ChoiceText(PrintDelta(c.delta), Quoted(c.finish)))
  }

  const CHUNK_NAME := "chat.completion.chunk"
  const NOTHING := ChunkDelta(None, None, None, [])

  // ----- the spliced pieces -----

  const ID_PREFIX := "{\"id\":"
  const OBJECT_CREATED := ",\"object\":" + "\"chat.completion.chunk\"" + ",\"created\":"
  const MODEL_PREFIX := ",\"model\":"
  const CHOICES_PREFIX := ",\"choices\":" + "[{\"index\":" + "0,"
  const MESSAGE_START_SUFFIX := "\"delta\":{\"role\":\"assistant\"}}]}"
  const TEXT_PREFIX := "\"delta\":{\"content\":"
  const CONTENT_SUFFIX := "}}]}"
  const THINKING_PREFIX := "\"delta\":{\"reasoning_content\":"
  const TOOL_INDEX_PREFIX := "\"delta\":{\"tool_calls\":[{\"index\":"
  const TOOL_ARGS_PREFIX := ",\"function\":{\"arguments\":"
  const TOOL_ARGS_SUFFIX := "}}]}}]}"
  const TOOL_START_PREFIX := ",\"id\":"
  const TOOL_NAME_PREFIX := ",\"type\":" + "\"function\"" + ",\"function\":{" + "\"name\":"
  const TOOL_START_SUFFIX := ",\"arguments\":\"\"}}]}}]}"
  const MESSAGE_DELTA_PREFIX := "\"delta\":{},\"finish_reason\":"
  const MESSAGE_DELTA_SUFFIX := "}]}"

  /** What is appended after the prefix. */
  datatype Body =
    | Start
    | Content(quoted: string)
    | Reasoning(quoted: string)
    | ToolArgs(index: int, quoted: string)
    | ToolStart(index: int, id: string, name: string)
    | Finish(quoted: string)

  function Spliced(b: Body): string {
    match b
    case Start => MESSAGE_START_SUFFIX
    case Content(q) => TEXT_PREFIX + q + CONTENT_SUFFIX
    case Reasoning(q) => THINKING_PREFIX + q + CONTENT_SUFFIX
    case ToolArgs(i, q) => TOOL_INDEX_PREFIX + PrintInt(i) + TOOL_ARGS_PREFIX + q + TOOL_ARGS_SUFFIX
    case ToolStart(i, id, name) =>
      TOOL_INDEX_PREFIX + PrintInt(i) + TOOL_START_PREFIX + id + TOOL_NAME_PREFIX + name + TOOL_START_SUFFIX
    case Finish(q) => MESSAGE_DELTA_PREFIX + q + MESSAGE_DELTA_SUFFIX
  }

  // ----- printing a chunk -----

  /** A string none of whose characters needs escaping. */
  function Fixed(s: string): string { ['"'] + (s + ['"']) }

  predicate Clean(c: char) { Word(c) || c == '.' }

  lemma {:induction false} FixedIsQuote(s: string)
    requires forall i :: 0 <= i < |s| ==> Clean(s[i])
    ensures Escaped(s) == s && Quote(s) == Fixed(s)
  {
    if s != "" {
      EscapedStep(s);
      FixedIsQuote(s[1..]);
    }
  }

  lemma Joined2(a: string, b: string)
    ensures Joined([a, b]) == a + "," + b
  {
    assert [a, b][1..] == [b];
  }

  lemma Joined3(a: string, b: string, c: string)
    ensures Joined([a, b, c]) == a + "," + (b + "," + c)
  {
    assert [a, b, c][1..] == [b, c];
    Joined2(b, c);
  }

  lemma Joined5(a: string, b: string, c: string, d: string, e: string)
    ensures Joined([a, b, c, d, e]) == a + "," + (b + "," + (c + "," + (d + "," + e)))
  {
    assert [a, b, c, d, e][1..] == [b, c, d, e];
    assert [b, c, d, e][1..] == [c, d, e];
    Joined3(c, d, e);
  }

  lemma IdConstant()
    ensures "{" + Marker("id") == ID_PREFIX
  {
  }

  lemma ChunkNameIsFixed()
    ensures Quote(CHUNK_NAME) == Fixed(CHUNK_NAME) == "\"chat.completion.chunk\""
  {
    FixedIsQuote(CHUNK_NAME);
  }

  lemma ObjectMarkers()
    ensures "," + Marker("object") == ",\"object\":"
    ensures "," + Marker("created") == ",\"created\":"
  {
  }

  lemma ObjectConstant()
    ensures OBJECT_CREATED == "," + Marker("object") + Quote(CHUNK_NAME) + ("," + Marker("created"))
  {
    ChunkNameIsFixed();
    ObjectMarkers();
  }

  lemma ModelConstant()
    ensures MODEL_PREFIX == "," + Marker("model")
  {
  }

  lemma ChoicesConstant()
    ensures CHOICES_PREFIX == "," + Marker("choices") + ("[{" + Marker("index")) + "0,"
  {
    assert "," + Marker("choices") == ",\"choices\":";
    assert "[{" + Marker("index") == "[{\"index\":";
  }

  /** Behind the fixed prefix. */
  function Rest(delta: string, finish: Option<string>): string {
    Marker("delta") + delta + (if finish.Some? then "," + Marker("finish_reason") + finish.value else "") + "}]}"
  }

  lemma RegroupChoice(o: string, i: string, z: string, k: string, m: string, d: string, x: string, y: string)
    ensures o + ((i + z) + k + (m + d)) + x + y == (o + i) + (z + k) + (m + d + (x + y))
  {
  }

  lemma RegroupFinish(o: string, i: string, z: string, k: string, m: string, d: string, f: string, q: string, x: string, y: string)
    ensures o + ((i + z) + k + ((m + d) + k + (f + q))) + x + y == (o + i) + (z + k) + (m + d + (k + f + q) + (x + y))
  {
  }

  lemma ChoiceIsRest(delta: string, finish: Option<string>)
    ensures ChoiceText(delta, finish) + "]}" == ("{" + Marker("index")) + "0," + Rest(delta, finish)
  {
    var i, d := Member("index", "0"), Member("delta", delta);
    if finish.None? {
      assert [i, d] + [] == [i, d];
      Joined2(i, d);
      RegroupChoice("{", Marker("index"), "0", ",", Marker("delta"), delta, "}", "]}");
    } else {
      var f := Member("finish_reason", finish.value);
      assert [i, d] + [f] == [i, d, f];
      Joined3(i, d, f);
      RegroupFinish("{", Marker("index"), "0", ",", Marker("delta"), delta, Marker("finish_reason"), finish.value, "}", "]}");
    }
  }

  lemma RegroupChunk(o: string, a: string, qa: string, b: string, qb: string, c: string, qc: string,
                     d: string, qd: string, e: string, l: string, choice: string, r: string, k: string, x: string)
    ensures o + ((a + qa) + k + ((b + qb) + k + ((c + qc) + k + ((d + qd) + k + (e + (l + choice + r)))))) + x
            == (o + a) + qa + (k + b + qb + (k + c)) + qc + (k + d) + qd + ((k + e) + l + (choice + (r + x)))
  {
  }

  lemma RegroupIndex(ke: string, l: string, o: string, i: string, zk: string, rest: string)
    ensures ke + l + ((o + i) + zk + rest) == ke + ((l + o) + i) + zk + rest
  {
  }

  lemma ChunkTextIs(id: string, kind: string, created: string, model: string, choice: string)
    ensures ChunkText(id, kind, created, model, choice)
            == ("{" + Marker("id")) + id + ("," + Marker("object") + kind + ("," + Marker("created"))) + created
               + ("," + Marker("model")) + model + (("," + Marker("choices")) + "[" + (choice + ("]" + "}")))
  {
    Joined5(Member("id", id), Member("object", kind), Member("created", created), Member("model", model),
            Member("choices", "[" + choice + "]"));
    RegroupChunk("{", Marker("id"), id, Marker("object"), kind, Marker("created"), created,
                 Marker("model"), model, Marker("choices"), "[", choice, "]", ",", "}");
  }

  lemma ChoicesAre(delta: string, finish: Option<string>)
    ensures ("," + Marker("choices")) + "[" + (ChoiceText(delta, finish) + ("]" + "}")) == CHOICES_PREFIX + Rest(delta, finish)
  {
    ChoicesConstant();
    ChoiceIsRest(delta, finish);
    assert "]" + "}" == "]}" && "[" + "{" == "[{";
    RegroupIndex("," + Marker("choices"), "[", "{", Marker("index"), "0,", Rest(delta, finish));
  }

  /** The encoder's output starts as the spliced one does. */
  lemma ChunkIsPrefixed(id: string, created: string, model: string, delta: string, finish: Option<string>)
    ensures ChunkText(id, Quote(CHUNK_NAME), created, model, ChoiceText(delta, finish))
            == ID_PREFIX + id + OBJECT_CREATED + created + MODEL_PREFIX + model + (CHOICES_PREFIX + Rest(delta, finish))
  {
    IdConstant();
    ObjectConstant();
    ModelConstant();
    ChoicesAre(delta, finish);
    ChunkTextIs(id, Quote(CHUNK_NAME), created, model, ChoiceText(delta, finish));
  }

  // ----- what is spliced -----

  lemma RegroupMember(m: string, o: string, f: string, q: string, x: string, y: string)
    ensures m + (o + (f + q) + x) + "" + y == (m + o + f) + q + (x + y)
  {
  }

  lemma OneMember(key: string, q: string)
    ensures Rest(Object([Member(key, q)]), None) == (Marker("delta") + "{" + Marker(key)) + q + "}}]}"
  {
    assert Joined([Member(key, q)]) == Member(key, q);
    RegroupMember(Marker("delta"), "{", Marker(key), q, "}", "}]}");
    assert "}" + "}]}" == "}}]}";
  }

  lemma TextConstant()
    ensures TEXT_PREFIX == Marker("delta") + "{" + Marker("content")
  {
    assert Marker("delta") == "\"delta\":";
  }

  lemma ThinkingConstant()
    ensures THINKING_PREFIX == Marker("delta") + "{" + Marker("reasoning_content")
  {
    assert Marker("delta") == "\"delta\":";
  }

  lemma ContentIsSpliced(text: string)
    ensures Rest(PrintDelta(NOTHING.(content := Some(text))), None) == Spliced(Content(Quote(text)))
  {
    var m := Member("content", Quote(text));
    assert [] + [m] + [] + [] == [m];
    OneMember("content", Quote(text));
    TextConstant();
  }

  lemma ReasoningIsSpliced(text: string)
    ensures Rest(PrintDelta(NOTHING.(reasoning := Some(text))), None) == Spliced(Reasoning(Quote(text)))
  {
    var m := Member("reasoning_content", Quote(text));
    assert [] + [] + [m] + [] == [m];
    OneMember("reasoning_content", Quote(text));
    ThinkingConstant();
  }

  lemma RoleConstant()
    ensures Marker("delta") + "{" + Marker("role") == "\"delta\":{\"role\":"
    ensures "\"delta\":{\"role\":" + "\"assistant\"" + "}}]}" == MESSAGE_START_SUFFIX
  {
    assert Marker("delta") == "\"delta\":";
  }

  lemma RoleIsSpliced()
    ensures Rest(PrintDelta(NOTHING.(role := Some("assistant"))), None) == Spliced(Start)
  {
    FixedIsQuote("assistant");
    var m := Member("role", Quote("assistant"));
    assert [m] + [] + [] + [] == [m];
    OneMember("role", Quote("assistant"));
    assert Fixed("assistant") == "\"assistant\"";
    RoleConstant();
  }

  lemma FinishIsSpliced(q: string)
    ensures Rest(PrintDelta(NOTHING), Some(q)) == Spliced(Finish(q))
  {
    assert Object([]) == "{}";
    FinishConstant();
    RegroupFinishOnly(Marker("delta"), "{}", ",", Marker("finish_reason"), q, "}]}");
  }

  lemma FinishConstant()
    ensures MESSAGE_DELTA_PREFIX == Marker("delta") + "{}" + ("," + Marker("finish_reason"))
  {
    assert Marker("delta") == "\"delta\":";
  }

  lemma RegroupFinishOnly(m: string, d: string, k: string, f: string, q: string, y: string)
    ensures m + d + (k + f + q) + y == (m + d + (k + f)) + q + y
  {
  }

  lemma ToolsAreSpliced(t: ToolCall)
    ensures Rest(PrintDelta(NOTHING.(tools := [t])), None)
            == (Marker("delta") + "{" + Marker("tool_calls")) + ("[" + PrintTool(t) + "]") + "}}]}"
  {
    var tools := [t];
    var printed := seq(|tools|, i requires 0 <= i < |tools| => PrintTool(tools[i]));
    assert printed == [PrintTool(t)];
    var m := Member("tool_calls", PrintTools(tools));
    assert [] + [] + [] + [m] == [m];
    OneMember("tool_calls", PrintTools(tools));
  }

  lemma RegroupArgs(p: string, l: string, o: string, i: string, n: string, k: string, f: string, a: string, q: string,
                    x: string, r: string, y: string)
    ensures p + (l + (o + ((i + n) + k + (f + (o + (a + q) + x))) + x) + r) + y
            == (p + l + o + i) + n + (k + f + o + a) + q + (x + x + r + y)
  {
    var inner := o + (a + q) + x;
    assert (i + n) + k + (f + inner) == i + n + (k + f) + inner;
    assert f + inner == (f + o + a) + q + x;
  }

  lemma ToolConstants()
    ensures TOOL_INDEX_PREFIX == (Marker("delta") + "{" + Marker("tool_calls")) + "[" + "{" + Marker("index")
    ensures TOOL_ARGS_PREFIX == "," + Marker("function") + "{" + Marker("arguments")
    ensures TOOL_ARGS_SUFFIX == "}" + "}" + "]" + "}}]}"
  {
    ToolIndexConstant();
    ToolArgsConstants();
  }

  lemma ToolIndexConstant()
    ensures TOOL_INDEX_PREFIX == (Marker("delta") + "{" + Marker("tool_calls")) + "[" + "{" + Marker("index")
  {
    assert Marker("delta") == "\"delta\":" && Marker("index") == "\"index\":";
    assert Marker("tool_calls") == "\"tool_calls\":";
  }

  lemma ToolArgsConstants()
    ensures TOOL_ARGS_PREFIX == "," + Marker("function") + "{" + Marker("arguments")
    ensures TOOL_ARGS_SUFFIX == "}" + "}" + "]" + "}}]}"
  {
  }

  lemma ArgsArePrinted(i: int, args: string)
    ensures PrintTool(ToolCall(i, "", "", None, args))
            == "{" + ((Marker("index") + PrintInt(i)) + "," + (Marker("function") + ("{" + (Marker("arguments") + Quote(args)) + "}"))) + "}"
  {
    var a := Member("arguments", Quote(args));
    assert [] + [a] == [a];
    JoinedOne(a);
    var m, f := Member("index", PrintInt(i)), Member("function", Object([a]));
    assert [m] + [] + [] + [f] == [m, f];
    Joined2(m, f);
  }

  lemma JoinedOne(m: string)
    ensures Object([m]) == "{" + m + "}"
  {
  }

  lemma ArgsAreSpliced(i: int, args: string)
    ensures Rest(PrintDelta(NOTHING.(tools := [ToolCall(i, "", "", None, args)])), None) == Spliced(ToolArgs(i, Quote(args)))
  {
    ToolsAreSpliced(ToolCall(i, "", "", None, args));
    ArgsArePrinted(i, args);
    ToolConstants();
    RegroupArgs(Marker("delta") + "{" + Marker("tool_calls"), "[", "{", Marker("index"), PrintInt(i), ",",
                Marker("function"), Marker("arguments"), Quote(args), "}", "]", "}}]}");
  }

  lemma RegroupCall(p: string, l: string, o: string, i: string, n: string, k: string, d: string, id: string, t: string,
                    f: string, m: string, name: string, a: string, x: string, r: string, y: string)
    ensures p + (l + (o + ((i + n) + k + ((d + id) + k + (t + k + (f + (o + ((m + name) + k + a) + x))))) + x) + r) + y
            == (p + l + o + i) + n + (k + d) + id + (k + t + k + f + o + m) + name + (k + a + x + x + r + y)
  {
    var inner := o + ((m + name) + k + a) + x;
    assert t + k + (f + inner) == (t + k + f + o + m) + name + (k + a + x);
  }

  lemma FunctionIsFixed()
    ensures Quote("function") == Fixed("function") == "\"function\""
  {
    FixedIsQuote("function");
  }

  lemma NothingIsFixed()
    ensures Quote("") == Fixed("") == "\"\""
  {
    FixedIsQuote("");
  }

  lemma StartConstant()
    ensures TOOL_START_PREFIX == "," + Marker("id")
  {
  }

  lemma NameConstant()
    ensures TOOL_NAME_PREFIX == "," + (Marker("type") + "\"function\"") + "," + Marker("function") + "{" + Marker("name")
  {
    assert "," + Marker("type") == ",\"type\":";
    assert "," + Marker("function") + "{" == ",\"function\":{" && Marker("name") == "\"name\":";
  }

  lemma SuffixConstant()
    ensures TOOL_START_SUFFIX == "," + (Marker("arguments") + "\"\"") + "}" + "}" + "]" + "}}]}"
  {
    assert Marker("arguments") == "\"arguments\":";
  }

  lemma Joined4(a: string, b: string, c: string, d: string)
    ensures Joined([a, b, c, d]) == a + "," + (b + "," + (c + "," + d))
  {
    assert [a, b, c, d][1..] == [b, c, d];
    Joined3(b, c, d);
  }

  lemma CallIsPrinted(i: int, id: string, name: string)
    requires id != ""
    ensures PrintTool(ToolCall(i, id, "function", Some(name), ""))
            == "{" + ((Marker("index") + PrintInt(i)) + "," + ((Marker("id") + Quote(id)) + "," +
               ((Marker("type") + Quote("function")) + "," + (Marker("function") +
               ("{" + ((Marker("name") + Quote(name)) + "," + (Marker("arguments") + Quote(""))) + "}"))))) + "}"
  {
    var n, a := Member("name", Quote(name)), Member("arguments", Quote(""));
    assert [n] + [a] == [n, a];
    Joined2(n, a);
    var m, d, t, f := Member("index", PrintInt(i)), Member("id", Quote(id)), Member("type", Quote("function")),
      Member("function", Object([n, a]));
    assert [m] + [d] + [t] + [f] == [m, d, t, f];
    Joined4(m, d, t, f);
  }

  lemma CallIsSpliced(i: int, id: string, name: string)
    requires id != ""
    ensures Rest(PrintDelta(NOTHING.(tools := [ToolCall(i, id, "function", Some(name), "")])), None)
            == Spliced(ToolStart(i, Quote(id), Quote(name)))
  {
    ToolsAreSpliced(ToolCall(i, id, "function", Some(name), ""));
    CallIsPrinted(i, id, name);
    ToolConstants();
    StartConstant();
    NameConstant();
    SuffixConstant();
    FunctionIsFixed();
    NothingIsFixed();
    RegroupCall(Marker("delta") + "{" + Marker("tool_calls"), "[", "{", Marker("index"), PrintInt(i), ",", Marker("id"), Quote(id),
                Marker("type") + Quote("function"), Marker("function"), Marker("name"), Quote(name),
                Marker("arguments") + Quote(""), "}", "]", "}}]}");
  }
}
