/** `parseControlToolFallback` of internal/cline/control_tool_recovery.go: the prose copy of a
    broken `write_stdin` call is read back into call arguments.

    `Render` prints such a copy; the parser accepts exactly the printed copies of four distinct,
    well-formed parameters, in any order. */
module ControlTool {
  import opened Text
  import J = JsonText

  const OPEN_PARAMETER := "<parameter="
  const CLOSE_PARAMETER := "</parameter>"
  const ETX := ['\U{3}']

  datatype Name = Chars | SessionId | MaxOutputTokens | YieldTimeMs

  function NameText(name: Name): string {
    match name
    case Chars => "chars"
    case SessionId => "session_id"
    case MaxOutputTokens => "max_output_tokens"
    case YieldTimeMs => "yield_time_ms"
  }

  function NameOf(s: string): (r: Option<Name>)
    ensures r.Some? ==> NameText(r.value) == s
  {
    if s == "chars" then Some(Chars)
    else if s == "session_id" then Some(SessionId)
    else if s == "max_output_tokens" then Some(MaxOutputTokens)
    else if s == "yield_time_ms" then Some(YieldTimeMs)
    else None
  }

  lemma NameTextIsKnown(name: Name)
    ensures NameOf(NameText(name)) == Some(name) && Plain(NameText(name))
  {
    assert NameText(Chars)[0] == 'c' && NameText(SessionId)[0] == 's'
        && NameText(MaxOutputTokens)[0] == 'm' && NameText(YieldTimeMs)[0] == 'y';
  }

  /** A parameter as it is written. */
  datatype Parameter = Parameter(name: Name, value: string)

  /** The number a parameter stands for, if the parser takes it; `chars` must be the ETX byte. */
  function Number(p: Parameter): Option<int> {
    if p.name == Chars then
      if p.value == ETX then Some(0) else None
    else
      match ParseInt(p.value)
      case None => None
      case Some(v) => if v < 0 || (p.name == SessionId && v == 0) then None else Some(v)
  }

  /** Which values are taken: the ETX byte, and numbers that are not negative, of which a session's is
      not zero. */
  lemma NumberExactly(p: Parameter)
    ensures p.name == Chars ==> (Number(p).Some? <==> p.value == "\U{3}")
    ensures p.name == SessionId ==>
      Number(p) == if ParseInt(p.value).Some? && ParseInt(p.value).value >= 1 then ParseInt(p.value) else None
    ensures p.name == MaxOutputTokens || p.name == YieldTimeMs ==>
      Number(p) == if ParseInt(p.value).Some? && ParseInt(p.value).value >= 0 then ParseInt(p.value) else None
  {
    assert ETX == "\U{3}";
  }

  /** One written parameter and the text behind it. */
  function Written(name: string, value: string, rest: string): string {
    OPEN_PARAMETER + (name + (">" + (value + (CLOSE_PARAMETER + rest))))
  }

  function Render(ps: seq<Parameter>): string {
    if ps == [] then "" else Written(NameText(ps[0].name), ps[0].value, Render(ps[1..]))
  }

  lemma WrittenIs(name: string, value: string, rest: string)
    ensures Written(name, value, rest) == "<parameter=" + name + ">" + value + "</parameter>" + rest
  {
  }

  /** Every parameter is well-formed and none repeats a name. */
  predicate WellFormed(ps: seq<Parameter>, seen: set<Name>) {
    ps != [] ==>
      Number(ps[0]).Some? && ps[0].name !in seen && WellFormed(ps[1..], seen + {ps[0].name})
  }

  function Values(ps: seq<Parameter>, seen: map<Name, int>): (values: map<Name, int>)
    requires WellFormed(ps, seen.Keys)
    ensures |values| == |seen| + |ps|
  {
    if ps == [] then seen
    else
      assert seen[ps[0].name := Number(ps[0]).value].Keys == seen.Keys + {ps[0].name};
      Values(ps[1..], seen[ps[0].name := Number(ps[0]).value])
  }

  /** `strings.Cut`: the text around the first separator. */
  function Cut(s: string, sep: string): (r: Option<(string, string)>)
    ensures r.Some? ==> s == r.value.0 + (sep + r.value.1)
  {
    match Index(s, sep)
    case None => None
    case Some(i) =>
      assert s[i..] == sep + s[i + |sep|..];
      Some((s[..i], s[i + |sep|..]))
  }

  /** The name, the value and the text behind the parameter at the start of a text. */
  function First(text: string): (r: Option<(string, string, string)>)
    ensures r.Some? ==> text == Written(r.value.0, r.value.1, r.value.2) && |r.value.2| < |text|
  {
    if !(OPEN_PARAMETER <= text) then None
    else
      var body := text[|OPEN_PARAMETER|..];
      assert text == OPEN_PARAMETER + body;
      match Cut(body, ">")
      case None => None
      case Some((name, behind)) =>
        match Cut(behind, CLOSE_PARAMETER)
        case None => None
        case Some((value, rest)) => Some((name, value, rest))
  }

  function ParseAll(text: string, seen: map<Name, int>): Option<map<Name, int>>
    decreases |text|
  {
    if text == "" then Some(seen)
    else
      match First(text)
      case None => None
      case Some((name, value, rest)) =>
        match NameOf(name)
        case None => None
        case Some(n) =>
          if n in seen || Number(Parameter(n, value)).None? then None
          else ParseAll(rest, seen[n := Number(Parameter(n, value)).value])
  }

  // ----- printing and reading back -----

  predicate Plain(s: string) { forall i :: 0 <= i < |s| ==> s[i] != '<' && s[i] != '>' }

  lemma CutPlain(a: string, sep: string, rest: string)
    requires |sep| > 0 && (sep[0] == '<' || sep[0] == '>') && Plain(a)
    ensures Cut(a + (sep + rest), sep) == Some((a, rest))
  {
    var s := a + (sep + rest);
    assert s[|a|..] == sep + rest;
    IndexIsFirst(s, sep, |a|);
    var i := Index(s, sep).value;
    assert s[i] == s[i..][0] == sep[0];
    assert forall k :: 0 <= k < |a| ==> s[k] == a[k];
    assert s[..|a|] == a && s[|a| + |sep|..] == rest;
  }

  lemma IntIsPlain(s: string)
    requires ParseInt(s).Some?
    ensures Plain(s)
  {
    var digits := if s != "" && (s[0] == '-' || s[0] == '+') then s[1..] else s;
    forall i | 0 <= i < |s| ensures s[i] != '<' && s[i] != '>' {
      if |digits| < |s| && i > 0 { assert s[i] == digits[i - 1]; }
    }
  }

  lemma FirstOfWritten(name: string, value: string, rest: string)
    requires Plain(name) && Plain(value)
    ensures First(Written(name, value, rest)) == Some((name, value, rest))
  {
    var behind := value + (CLOSE_PARAMETER + rest);
    var body := name + (">" + behind);
    assert Written(name, value, rest)[|OPEN_PARAMETER|..] == body;
    CutPlain(name, ">", behind);
    CutPlain(value, CLOSE_PARAMETER, rest);
  }

  /** One turn of the parser on one written parameter. */
  lemma ParseStep(p: Parameter, rest: string, seen: map<Name, int>)
    requires Number(p).Some? && p.name !in seen
    ensures Written(NameText(p.name), p.value, rest) != ""
    ensures ParseAll(Written(NameText(p.name), p.value, rest), seen) == ParseAll(rest, seen[p.name := Number(p).value])
  {
    NameTextIsKnown(p.name);
    if p.name != Chars { IntIsPlain(p.value); }
    FirstOfWritten(NameText(p.name), p.value, rest);
  }

  lemma {:induction false} RenderedParses(ps: seq<Parameter>, seen: map<Name, int>)
    requires WellFormed(ps, seen.Keys)
    ensures ParseAll(Render(ps), seen) == Some(Values(ps, seen))
  {
    if ps != [] {
      var more := seen[ps[0].name := Number(ps[0]).value];
      assert more.Keys == seen.Keys + {ps[0].name};
      ParseStep(ps[0], Render(ps[1..]), seen);
      RenderedParses(ps[1..], more);
    }
  }

  lemma {:induction false} ParsedIsRendered(text: string, seen: map<Name, int>) returns (ps: seq<Parameter>)
    requires ParseAll(text, seen).Some?
    ensures WellFormed(ps, seen.Keys) && Render(ps) == text
    ensures ParseAll(text, seen).value == Values(ps, seen)
    decreases |text|
  {
    if text == "" {
      ps := [];
    } else {
      var (name, value, rest) := First(text).value;
      var p := Parameter(NameOf(name).value, value);
      var more := seen[p.name := Number(p).value];
      assert more.Keys == seen.Keys + {p.name};
      var later := ParsedIsRendered(rest, more);
      ps := [p] + later;
      assert ps[1..] == later;
    }
  }

  // ----- the whole fallback -----

  predicate AllNamed(v: map<Name, int>) {
    Chars in v && SessionId in v && MaxOutputTokens in v && YieldTimeMs in v
  }

  // ----- the arguments as JSON -----

  function Field(name: Name, n: int, c: char, rest: J.Doc): J.Doc {
    J.More(NameText(name), [':'] + (PrintInt(n) + [c]), rest)
  }

  /** The keys in order, each with its own number. */
  function Numbers(v: map<Name, int>): J.Doc
    requires AllNamed(v)
  {
    Field(MaxOutputTokens, v[MaxOutputTokens], ',', Field(SessionId, v[SessionId], ',', Field(YieldTimeMs, v[YieldTimeMs], '}', J.End)))
  }

  function ArgumentsDoc(v: map<Name, int>): J.Doc
    requires AllNamed(v)
  {
    J.More(NameText(Chars), [':'], J.More(ETX, [','], Numbers(v)))
  }

  /** `json.Marshal` of the four values. */
  function EncodeArguments(v: map<Name, int>): string
    requires AllNamed(v)
  {
    ['{'] + J.Print(ArgumentsDoc(v))
  }

  lemma {:induction false} WordIsPrinted(s: string)
    requires J.Words(s)
    ensures J.Escaped(s) == s && J.Quote(s) == ['"'] + (s + ['"'])
  {
    if s != "" {
      J.EscapedStep(s);
      WordIsPrinted(s[1..]);
    }
  }

  lemma NamesArePrinted(name: Name)
    ensures J.Words(NameText(name)) && NameText(name) != "" && J.Quote(NameText(name)) == ['"'] + (NameText(name) + ['"'])
  {
    WordIsPrinted(NameText(name));
  }

  lemma EtxIsPrinted()
    ensures J.Quote(ETX) == "\"\\u0003\""
  {
    J.EscapedStep(ETX);
    assert ETX[1..] == "";
    assert J.EscapedChar(ETX[0]) == "\\u0003";
  }

  lemma NumberIsBare(name: Name, n: int, c: char)
    requires c == ',' || c == '}'
    ensures J.Bare(NameText(name), [':'] + (PrintInt(n) + [c]))
  {
    NamesArePrinted(name);
    var digits := PrintNat(if n < 0 then -n else n);
    assert '"' !in digits;
    assert PrintInt(n) != "" && !J.Blank(PrintInt(n)[0]);
  }

  lemma FieldIsPrinted(name: Name, n: int, c: char, rest: J.Doc)
    requires c == ',' || c == '}'
    ensures J.Printed(Field(name, n, c, rest)) <==> J.Printed(rest)
    ensures J.Print(Field(name, n, c, rest)) == ['"'] + (NameText(name) + (['"', ':'] + (PrintInt(n) + ([c] + J.Print(rest)))))
  {
    NamesArePrinted(name);
    NumberIsBare(name, n, c);
    JoinField(NameText(name), PrintInt(n), c, J.Print(rest));
  }

  lemma JoinField(name: string, number: string, c: char, rest: string)
    ensures ['"'] + (name + ['"']) + ([':'] + (number + [c]) + rest) == ['"'] + (name + (['"', ':'] + (number + ([c] + rest))))
  {
  }

  lemma FieldIsFound(name: Name, n: int, c: char, rest: J.Doc, other: Name)
    ensures J.AfterKey(Field(name, n, c, rest), NameText(other))
         == if other == name then Some(PrintInt(n) + ([c] + J.Print(rest))) else J.AfterKey(rest, NameText(other))
  {
    NamesDiffer(name, other);
    ValueIsFound(NameText(name), PrintInt(n), c, rest, NameText(other));
  }

  lemma NamesDiffer(a: Name, b: Name)
    ensures NameText(a) == NameText(b) <==> a == b
  {
    NameTextIsKnown(a);
    NameTextIsKnown(b);
  }

  lemma ValueIsFound(key: string, value: string, c: char, rest: J.Doc, other: string)
    ensures J.AfterKey(J.More(key, [':'] + (value + [c]), rest), other)
         == if key == other then Some(value + ([c] + J.Print(rest))) else J.AfterKey(rest, other)
  {
    assert ([':'] + (value + [c]))[1..] == value + [c];
    assert value + [c] + J.Print(rest) == value + ([c] + J.Print(rest));
  }

  lemma CharsIsPrinted(rest: J.Doc, name: Name)
    requires name != Chars
    ensures var d := J.More(NameText(Chars), [':'], J.More(ETX, [','], rest));
      && J.Print(d) == ['"'] + (NameText(Chars) + (['"', ':'] + ("\"\\u0003\"" + ([','] + J.Print(rest)))))
      && (J.Printed(rest) ==> J.Printed(d)) && J.AfterKey(d, NameText(name)) == J.AfterKey(rest, NameText(name))
  {
    NamesArePrinted(Chars);
    EtxIsPrinted();
    NamesDiffer(Chars, name);
    StringIsPrinted(NameText(Chars), ETX, rest, NameText(name));
  }

  lemma StringIsPrinted(key: string, value: string, rest: J.Doc, other: string)
    requires key != other && J.Words(key)
    ensures var d := J.More(key, [':'], J.More(value, [','], rest));
      && J.Print(d) == J.Quote(key) + ([':'] + (J.Quote(value) + ([','] + J.Print(rest))))
      && (J.Printed(rest) ==> J.Printed(d)) && J.AfterKey(d, other) == J.AfterKey(rest, other)
  {
    var d := J.More(value, [','], rest);
    assert J.Print(J.More(key, [':'], d)) == J.Quote(key) + ([':'] + J.Print(d));
    assert J.AfterKey(d, other) == J.AfterKey(rest, other);
  }

  lemma ArgumentsArePrinted(v: map<Name, int>)
    requires AllNamed(v)
    ensures J.Printed(ArgumentsDoc(v))
  {
    var third := Field(YieldTimeMs, v[YieldTimeMs], '}', J.End);
    var second := Field(SessionId, v[SessionId], ',', third);
    FieldIsPrinted(YieldTimeMs, v[YieldTimeMs], '}', J.End);
    FieldIsPrinted(SessionId, v[SessionId], ',', third);
    FieldIsPrinted(MaxOutputTokens, v[MaxOutputTokens], ',', second);
    CharsIsPrinted(Numbers(v), SessionId);
  }

  lemma KeysAreFound(v: map<Name, int>, name: Name)
    requires AllNamed(v)
    ensures J.CutAfter(EncodeArguments(v), J.Marker(NameText(name))) == J.AfterKey(ArgumentsDoc(v), NameText(name))
  {
    ArgumentsArePrinted(v);
    NamesArePrinted(name);
    J.MarkerFindsKey(ArgumentsDoc(v), NameText(name));
    assert EncodeArguments(v)[1..] == J.Print(ArgumentsDoc(v)) && J.Marker(NameText(name))[0] == '"';
  }

  /** What was found begins with this value, and nothing belongs to it but that. */
  predicate IsFound(found: Option<string>, value: string, rest: string) {
    found == Some(value + rest) && rest != "" && (rest[0] == ',' || rest[0] == '}')
  }

  lemma CharsReadBack(v: map<Name, int>)
    requires AllNamed(v)
    ensures exists rest :: IsFound(J.CutAfter(EncodeArguments(v), J.Marker(NameText(Chars))), "\"\\u0003\"", rest)
  {
    KeysAreFound(v, Chars);
    EtxIsPrinted();
    var d := J.More(ETX, [','], Numbers(v));
    assert [':'][1..] + J.Print(d) == J.Quote(ETX) + ([','] + J.Print(Numbers(v)));
    assert IsFound(J.AfterKey(ArgumentsDoc(v), NameText(Chars)), "\"\\u0003\"", [','] + J.Print(Numbers(v)));
  }

  /** Behind each key of the arguments stands the number that the copy gave under that name. */
  lemma ArgumentsReadBack(v: map<Name, int>, name: Name)
    requires AllNamed(v) && name != Chars
    ensures exists rest :: IsFound(J.CutAfter(EncodeArguments(v), J.Marker(NameText(name))), PrintInt(v[name]), rest)
  {
    var third := Field(YieldTimeMs, v[YieldTimeMs], '}', J.End);
    var second := Field(SessionId, v[SessionId], ',', third);
    var found := J.AfterKey(ArgumentsDoc(v), NameText(name));
    KeysAreFound(v, name);
    CharsIsPrinted(Numbers(v), name);
    FieldIsFound(MaxOutputTokens, v[MaxOutputTokens], ',', second, name);
    FieldIsFound(SessionId, v[SessionId], ',', third, name);
    FieldIsFound(YieldTimeMs, v[YieldTimeMs], '}', J.End, name);
    match name
    case MaxOutputTokens => assert IsFound(found, PrintInt(v[name]), [','] + J.Print(second));
    case SessionId => assert IsFound(found, PrintInt(v[name]), [','] + J.Print(third));
    case YieldTimeMs => assert IsFound(found, PrintInt(v[name]), ['}'] + J.Print(J.End));
  }

  lemma SubsetSize<T>(a: set<T>, b: set<T>)
    requires a <= b
    ensures |a| <= |b|
  {
    assert b == a + (b - a);
  }

  lemma FourOfFour(v: map<Name, int>)
    ensures |v| == 4 <==> AllNamed(v)
  {
    var all := {Chars, SessionId, MaxOutputTokens, YieldTimeMs};
    forall n: Name ensures n in all { match n case _ => assert n == Chars || n == SessionId || n == MaxOutputTokens || n == YieldTimeMs; }
    if AllNamed(v) {
      assert v.Keys == all;
    } else {
      var n :| n in all && n !in v;
      SubsetSize(v.Keys, all - {n});
    }
  }

  /** The markup around the parameters. */
  datatype Frame = Frame(prefix: string, ending: string) {
    function Around(body: string): string { prefix + (body + ending) }

    predicate Fits(text: string) {
      prefix <= text && |text| >= |ending| && text[|text| - |ending|..] == ending
    }

    /** The ending starts with `</`, which the prefix does not hold, so the two cannot share bytes. */
    predicate Apart() {
      && |ending| >= 2 && ending[0] == '<' && ending[1] == '/'
      && forall i :: 0 <= i < |prefix| ==> prefix[i] != '<' || (i + 1 < |prefix| && prefix[i + 1] != '/')
    }

    function Body(text: string): (body: string)
      requires Apart() && Fits(text)
      ensures text == Around(body)
    {
      var k := |text| - |ending|;
      assert text[k..][0] == '<' && text[k..][1] == '/';
      PrefixEndsBefore(text, k);
      JoinThree(text, |prefix|, k);
      text[|prefix|..k]
    }

    lemma PrefixEndsBefore(text: string, k: nat)
      requires Apart() && prefix <= text && k + 1 < |text| && text[k] == '<' && text[k + 1] == '/'
      ensures k >= |prefix|
    {
      assert forall i :: 0 <= i < |prefix| ==> text[i] == prefix[i];
    }

    lemma BodyOfAround(body: string)
      requires Apart()
      ensures Fits(Around(body)) && Body(Around(body)) == body
    {
      var text := Around(body);
      assert text[|text| - |ending|..] == ending;
      assert text[|prefix|..|text| - |ending|] == body;
    }
  }

  lemma JoinThree(s: string, i: nat, k: nat)
    requires i <= k <= |s|
    ensures s == s[..i] + (s[i..k] + s[k..])
  {
  }

  const NO_VALUES: map<Name, int> := map[]

  /** The answer for the text between the two ends. */
  function Answer(values: Option<map<Name, int>>): Option<string> {
    match values
    case None => None
    case Some(v) =>
      FourOfFour(v);
      if |v| != 4 then None else Some(EncodeArguments(v))
  }

  /** The fallback as a function of the text: `None` is the refusal. */
  function ParsedIn(frame: Frame, text: string): Option<string>
    requires frame.Apart()
  {
    if frame.Fits(text) then Answer(ParseAll(frame.Body(text), NO_VALUES)) else None
  }

  const WRITE_STDIN := Frame("<tool_call><function=write_stdin>", "</function></tool_call>")

  function Parsed(text: string): Option<string> {
    WriteStdinIsApart();
    ParsedIn(WRITE_STDIN, text)
  }

  lemma WriteStdinIsApart()
    ensures WRITE_STDIN.Apart()
  {
  }

  /** A copy of four well-formed parameters with distinct names. */
  predicate IsCopy(frame: Frame, ps: seq<Parameter>, text: string, arguments: string) {
    && |ps| == 4 && WellFormed(ps, NO_VALUES.Keys) && text == frame.Around(Render(ps))
    && AllNamed(Values(ps, NO_VALUES)) && arguments == EncodeArguments(Values(ps, NO_VALUES))
  }

  lemma CopyParses(frame: Frame, ps: seq<Parameter>, text: string, arguments: string)
    requires frame.Apart() && IsCopy(frame, ps, text, arguments)
    ensures ParsedIn(frame, text) == Some(arguments)
  {
    RenderedParses(ps, NO_VALUES);
    frame.BodyOfAround(Render(ps));
  }

  lemma ParsedIsCopy(frame: Frame, text: string) returns (ps: seq<Parameter>)
    requires frame.Apart() && ParsedIn(frame, text).Some?
    ensures IsCopy(frame, ps, text, ParsedIn(frame, text).value)
  {
    ps := ParsedIsRendered(frame.Body(text), NO_VALUES);
    FourOfFour(Values(ps, NO_VALUES));
  }

  /** The fallback accepts a text exactly if it is the printed copy of four well-formed parameters
      with distinct names, in any order, and then returns their values. */
  lemma ParsesExactlyPrintedCalls(text: string, arguments: string)
    ensures Parsed(text) == Some(arguments) <==>
      exists ps :: IsCopy(Frame("<tool_call><function=write_stdin>", "</function></tool_call>"), ps, text, arguments)
  {
    WriteStdinIsApart();
    if Parsed(text) == Some(arguments) {
      var ps := ParsedIsCopy(WRITE_STDIN, text);
    }
    forall ps | IsCopy(WRITE_STDIN, ps, text, arguments) ensures Parsed(text) == Some(arguments) {
      CopyParses(WRITE_STDIN, ps, text, arguments);
    }
  }

  method ParseControlToolFallback(text: string) returns (arguments: Option<string>)
    ensures arguments == Parsed(text)
  {
    WriteStdinIsApart();
    arguments := ParseInFrame(WRITE_STDIN, text);
  }

  method ParseInFrame(frame: Frame, text: string) returns (arguments: Option<string>)
    requires frame.Apart()
    ensures arguments == ParsedIn(frame, text)
  {
    if !frame.Fits(text) {
      return None;
    }
    var values := ParseParameters(frame.Body(text));
    return Answer(values);
  }

  /** The loop of the parser, which consumes the text parameter by parameter. */
  method ParseParameters(body: string) returns (parsed: Option<map<Name, int>>)
    ensures parsed == ParseAll(body, NO_VALUES)
  {
    var text := body;
    var values := NO_VALUES;
    while text != ""
      invariant ParseAll(text, values) == ParseAll(body, NO_VALUES)
      decreases |text|
    {
      var first := First(text);
      if first.None? {
        return None;
      }
      var name := NameOf(first.value.0);
      if name.None? || name.value in values {
        return None;
      }
      var number := Number(Parameter(name.value, first.value.1));
      if number.None? {
        return None;
      }
      values := values[name.value := number.value];
      text := first.value.2;
    }
    return Some(values);
  }
}
