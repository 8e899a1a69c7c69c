/** internal/cline/control_tool_recovery.go and the emit order of `consumeStreamWithToolNames` in
    internal/cline/stream.go: answer text passes the splitter, then the recovery buffer, which may
    hold it back while it could be the prose copy of a broken tool call.  Reasoning passes at once, and
    calls are sent at each finish reason and at the end. */
module ClineStream {
  import opened Text
  import opened ThinkSplitter
  import opened ToolStream
  import ControlTool

  const BROKEN := "{\"chars\":"
  const PROLOG := "<tool_call><function=write_stdin><parameter=chars>\U{3}</parameter>"
  const CAPTURE_LIMIT: nat := 16 * 1024

  /** The shape in which the upstream's decoder leaves a call it could not read. */
  predicate Stopped(call: CallState) { Trim(call.arguments) == BROKEN }

  predicate Recoverable(call: CallState) { call.id != "" && call.name == "write_stdin" && Stopped(call) }

  /** Text that may be the copy of such a call, as far as it goes. */
  predicate Compatible(prolog: string, text: string) { text <= prolog || prolog <= text }

  /** What the recovery knows of the text: what it holds, and what it was given, passed on and withheld
      for good. */
  datatype Buffer = Buffer(text: string, overflow: bool, resolved: bool, disabled: bool, off: bool,
                           given: string, passed: string, lost: string)

  /** Nothing is lost but for the sake of a remembered call; until it resolves, it holds all of the text
      or none.  `off` says that it was disabled from the start. */
  predicate Sound(prolog: string, b: Buffer, remembers: bool) {
    && b.given == b.lost + (b.passed + if b.resolved then "" else b.text)
    && (b.lost != "" ==> remembers)
    && (!b.resolved ==>
          && (b.lost != "" ==> b.overflow) && (b.off ==> b.disabled)
          && (b.overflow ==> b.disabled && !b.off && Compatible(prolog, b.given) && |b.given| > CAPTURE_LIMIT)
          && if b.disabled then b.text == "" && (b.off || b.overflow || !Compatible(prolog, b.given))
             else b.text == b.given && Compatible(prolog, b.given) && |b.given| <= CAPTURE_LIMIT)
  }

  lemma StaysIncompatible(prolog: string, text: string, piece: string)
    ensures Compatible(prolog, text + piece) ==> Compatible(prolog, text)
    ensures Compatible(prolog, text) && |text| >= |prolog| ==> Compatible(prolog, text + piece)
  {
    assert (text + piece)[..|text|] == text;
  }

  lemma PassingKeeps(prolog: string, b: Buffer, remembers: bool, piece: string)
    requires Sound(prolog, b, remembers) && |prolog| <= CAPTURE_LIMIT && (piece == "" || b.resolved || b.disabled)
    ensures Sound(prolog, b.(given := b.given + piece, passed := b.passed + piece), remembers)
  {
    var held := if b.resolved then "" else b.text;
    StaysIncompatible(prolog, b.given, piece);
    assert b.lost + (b.passed + held) + piece == b.lost + (b.passed + piece + held);
  }

  /** While it holds anything it holds all there is. */
  lemma HoldsAll(prolog: string, b: Buffer, remembers: bool)
    requires Sound(prolog, b, remembers) && !b.resolved && !b.disabled
    ensures b.lost == b.passed == "" && b.text == b.given
  {
    assert |b.given| == |b.lost| + |b.passed| + |b.given|;
  }

  lemma HoldingKeeps(prolog: string, b: Buffer, remembers: bool, piece: string)
    requires Sound(prolog, b, remembers) && !b.resolved && !b.disabled
    requires Compatible(prolog, b.text + piece) && |b.text + piece| <= CAPTURE_LIMIT
    ensures Sound(prolog, b.(given := b.given + piece, text := b.text + piece), remembers)
  {
    HoldsAll(prolog, b, remembers);
  }

  /** What has been received of the text `given`, as long as nothing is passed on for the calls' sake: all
      of it or nothing, but for an overrun beside a call that is waited for. */
  predicate Progressed(prolog: string, enabled: bool, waits: bool, given: string, lost: string, received: string) {
    if enabled && (given <= prolog || prolog <= given) && |given| <= 16384 then received == ""
    else
      && lost + received == given
      && (lost != "" ==> enabled && waits && (given <= prolog || prolog <= given) && |given| > 16384)
  }

  lemma HeldOrPassed(prolog: string, b: Buffer, remembers: bool)
    requires Sound(prolog, b, remembers) && !b.resolved
    ensures Progressed(prolog, !b.off, remembers, b.given, b.lost, b.passed)
    ensures Progressed(prolog, !b.off, remembers, b.given, b.lost + b.text, b.passed)
  {
    if b.disabled {
      assert b.passed + b.text == b.passed && b.lost + b.text == b.lost;
    } else {
      HoldsAll(prolog, b, remembers);
    }
  }

  /** Letting go, because the text is not the copy of a call or because it is too long for one. */
  lemma ReleasingKeeps(prolog: string, b: Buffer, remembers: bool, piece: string, overflow: bool)
    requires Sound(prolog, b, remembers) && !b.resolved && !b.disabled
    requires if overflow then Compatible(prolog, b.text + piece) && |b.text + piece| > CAPTURE_LIMIT
             else !Compatible(prolog, b.text + piece)
    ensures var after := b.(given := b.given + piece, text := "", disabled := true, overflow := overflow);
      && Sound(prolog, after.(passed := b.passed + (b.text + piece)), remembers)
      && (overflow && remembers ==> Sound(prolog, after.(lost := b.text + piece), remembers))
  {
    HoldsAll(prolog, b, remembers);
  }

  /** `capture`: the buffer afterwards, the text that is passed on, and whether it took the piece. */
  function Captured(prolog: string, b: Buffer, remembers: bool, piece: string): (Buffer, string, bool) {
    var given, combined := b.given + piece, b.text + piece;
    if piece == "" || b.resolved || b.disabled then
      (b.(given := given, passed := b.passed + piece), piece, false)
    else if !Compatible(prolog, combined) then
      (b.(given := given, text := "", disabled := true, passed := b.passed + combined), combined, false)
    else if |combined| > CAPTURE_LIMIT then
      var after := b.(given := given, text := "", disabled := true, overflow := true);
      if remembers then (after.(lost := combined), "", true)
      else (after.(passed := b.passed + combined), combined, false)
    else (b.(given := given, text := combined), "", true)
  }

  lemma CapturedKeeps(prolog: string, b: Buffer, remembers: bool, piece: string)
    requires Sound(prolog, b, remembers) && |prolog| <= CAPTURE_LIMIT
    ensures var (after, output, captured) := Captured(prolog, b, remembers, piece);
      && Sound(prolog, after, remembers)
      && after.given == b.given + piece && after.passed == b.passed + (if captured then "" else output)
      && after.resolved == b.resolved && after.off == b.off
      && (after.lost != b.lost ==> remembers && !b.resolved && !b.disabled && |b.text + piece| > CAPTURE_LIMIT)
  {
    var combined := b.text + piece;
    if piece == "" || b.resolved || b.disabled {
      PassingKeeps(prolog, b, remembers, piece);
    } else if !Compatible(prolog, combined) {
      ReleasingKeeps(prolog, b, remembers, piece, false);
    } else if |combined| > CAPTURE_LIMIT {
      ReleasingKeeps(prolog, b, remembers, piece, true);
    } else {
      HoldingKeeps(prolog, b, remembers, piece);
    }
  }

  /** Text that overruns the buffer while a call is remembered is gone, whatever becomes of the call. */
  lemma OverrunIsLost(prolog: string, b: Buffer, piece: string)
    requires Sound(prolog, b, true) && !b.resolved && !b.disabled
    requires piece != "" && Compatible(prolog, b.text + piece) && |b.text + piece| > CAPTURE_LIMIT
    ensures var after := Captured(prolog, b, true, piece).0;
      after.lost == after.given == b.given + piece && after.passed == after.text == ""
  {
    HoldsAll(prolog, b, true);
  }

  lemma ResolvingKeeps(prolog: string, b: Buffer, remembers: bool)
    requires Sound(prolog, b, remembers) && !b.resolved
    ensures Sound(prolog, b.(resolved := true, passed := b.passed + b.text), remembers)
    ensures remembers ==> Sound(prolog, b.(resolved := true, lost := b.lost + b.text), remembers)
  {
    if !b.disabled { HoldsAll(prolog, b, remembers); }
  }

  /** What `resolve` answers: text to pass on, or nothing, or one of its two errors. */
  datatype Resolution = Pass(text: string) | Repaired | Ambiguous | Incomplete

  class ControlToolRecovery {
    const prolog: string
    var call: ToolCall?
    var text: string
    var ambiguous: bool
    var overflow: bool
    var resolved: bool
    var disabled: bool
    ghost const off: bool
    ghost var given: string
    ghost var passed: string
    ghost var lost: string

    ghost function Abs(): Buffer
      reads this
    {
      Buffer(text, overflow, resolved, disabled, off, given, passed, lost)
    }

    ghost predicate Valid()
      reads this
    {
      |prolog| <= CAPTURE_LIMIT && Sound(prolog, Abs(), call != null)
    }

    constructor (prolog: string, disabled: bool)
      requires |prolog| <= CAPTURE_LIMIT
      ensures Valid() && this.prolog == prolog && call == null && given == "" && passed == "" && lost == "" && off == disabled
      ensures !resolved && !ambiguous
    {
      call, text, ambiguous, overflow, resolved := null, "", false, false, false;
      this.prolog, this.disabled, off := prolog, disabled, disabled;
      given, passed, lost := "", "", "";
    }

    /** Only a named native call that stopped at the broken shape is remembered, and only one. */
    method Observe(seen: ToolCall)
      requires Valid()
      modifies this`call, this`ambiguous
      ensures Valid()
      ensures
        var broken := !resolved && seen.id != "" && seen.name == "write_stdin" && Trim(seen.arguments) == "{\"chars\":";
        && call == (if broken && old(call) == null then seen else old(call))
        && (ambiguous <==> old(ambiguous) || (broken && old(call) != null && old(call) != seen))
      ensures resolved || !Recoverable(seen.State()) ==> call == old(call) && ambiguous == old(ambiguous)
      ensures !resolved && Recoverable(seen.State()) ==>
        call == (if old(call) == null then seen else old(call)) && (ambiguous <==> old(ambiguous) || call != seen)
    {
      if resolved || seen.id == "" || seen.name != "write_stdin" || Trim(seen.arguments) != BROKEN {
        return;
      }
      if call != null && call != seen {
        ambiguous := true;
        return;
      }
      call := seen;
    }

    /** Text is held only while it could be the copy of a broken call. */
    method Capture(piece: string) returns (output: string, captured: bool)
      modifies this`text, this`overflow, this`disabled, this`given, this`passed, this`lost
      ensures (Abs(), output, captured) == Captured(prolog, old(Abs()), call != null, piece)
    {
      given := given + piece;
      var combined := text + piece;
      output, captured := piece, false;
      if piece == "" || resolved || disabled {
        passed := passed + piece;
      } else if !(combined <= prolog) && !(prolog <= combined) {
        text, disabled := "", true;
        output, passed := combined, passed + combined;
      } else if |combined| > CAPTURE_LIMIT {
        overflow, disabled, text := true, true, "";
        if call == null {
          output, passed := combined, passed + combined;
        } else {
          output, captured, lost := "", true, combined;
        }
      } else {
        text := combined;
        output, captured := "", true;
      }
    }

    /** A broken call is waiting for the text that was held or overran the buffer. */
    predicate NeedsRepair()
      reads this, call
    {
      call != null && (text != "" || overflow) && Stopped(call.State())
    }

    method Resolve() returns (r: Resolution)
      requires Valid()
      modifies this, if call == null then {} else {call}
      ensures Valid() && resolved && call == old(call) && given == old(given)
      ensures text == old(text) && ambiguous == old(ambiguous) && overflow == old(overflow) && disabled == old(disabled)
      ensures passed == old(passed) + if r.Pass? then r.text else ""
      ensures r.Pass? ==> r.text == if old(resolved) then "" else old(text)
      ensures old(resolved) ==> r.Pass?
      ensures r.Pass? <==> old(resolved || !NeedsRepair())
      ensures r == Ambiguous <==> !old(resolved) && old(NeedsRepair()) && (old(ambiguous) || old(overflow))
      ensures r == Repaired ==> ControlTool.Parsed(old(text)) == Some(call.arguments)
      ensures r == Incomplete ==> ControlTool.Parsed(old(text)) == None
      ensures call != null ==>
        call.State() == old(call.State()).(arguments := if r == Repaired then call.arguments else old(call.arguments))
      ensures lost == old(lost) + if r.Pass? then "" else old(text)
    {
      if resolved {
        return Pass("");
      }
      ResolvingKeeps(prolog, Abs(), call != null);
      resolved := true;
      if call == null || (|text| == 0 && !overflow) || Trim(call.arguments) != BROKEN {
        passed := passed + text;
        return Pass(text);
      }
      lost := lost + text;
      if ambiguous || overflow {
        return Ambiguous;
      }
      var arguments := ControlTool.ParseControlToolFallback(text);
      if arguments.None? {
        return Incomplete;
      }
      call.arguments := arguments.value;
      return Repaired;
    }
  }

  // ----- the consumer -----

  /** What one chunk can bring, in the order the consumer looks at it. */
  datatype Event =
    | Reasoning(text: string)
    | Tool(index: int, id: string, name: string, arguments: string)
    | Content(text: string)
    | Finish

  /** A call without an id is given one when it is sent. */
  datatype Message =
    | TextDelta(text: string)
    | ReasoningDelta(text: string, embedded: bool)
    | ToolCallDelta(call: CallState)

  datatype Outcome = Complete | Truncated | Refused

  /** The bytes of one kind. */
  function Chosen(reasoning: bool, bytes: seq<Byte>): string {
    if bytes == [] then ""
    else
      var last := bytes[|bytes| - 1];
      Chosen(reasoning, bytes[..|bytes| - 1]) + if last.reasoning == reasoning then [last.value] else ""
  }

  lemma {:induction false} ChosenConcat(reasoning: bool, a: seq<Byte>, b: seq<Byte>)
    ensures Chosen(reasoning, a + b) == Chosen(reasoning, a) + Chosen(reasoning, b)
  {
    if b == [] {
      assert a + b == a;
    } else {
      ChosenConcat(reasoning, a, b[..|b| - 1]);
      assert (a + b)[..|a + b| - 1] == a + b[..|b| - 1];
    }
  }

  lemma ChosenOne(reasoning: bool, b: Byte)
    ensures Chosen(reasoning, [b]) == if b.reasoning == reasoning then [b.value] else ""
  {
    assert [b][..0] == [];
  }

  lemma {:induction false} ChosenLabel(reasoning: bool, thinking: bool, s: string)
    ensures Chosen(reasoning, Label(thinking, s)) == if reasoning == thinking then s else ""
  {
    if s != "" {
      var first, rest := Byte(thinking, s[0]), Label(thinking, s[1..]);
      ChosenConcat(reasoning, [first], rest);
      ChosenOne(reasoning, first);
      ChosenLabel(reasoning, thinking, s[1..]);
      assert reasoning == thinking ==> Chosen(reasoning, [first]) + Chosen(reasoning, rest) == [s[0]] + s[1..];
    }
  }

  /** The bytes of some deltas behind others, and the reasoning in them. */
  function Fed(bytes: seq<Byte>, deltas: seq<Delta>): seq<Byte> {
    if deltas == [] then bytes
    else var d := deltas[|deltas| - 1]; Fed(bytes, deltas[..|deltas| - 1]) + Label(d.reasoning, d.text)
  }

  function Thought(thoughts: seq<Byte>, deltas: seq<Delta>): seq<Byte> {
    if deltas == [] then thoughts
    else
      var d := deltas[|deltas| - 1];
      Thought(thoughts, deltas[..|deltas| - 1]) + if d.reasoning then Label(true, d.text) else []
  }

  lemma FedNext(bytes: seq<Byte>, thoughts: seq<Byte>, deltas: seq<Delta>, d: Delta)
    ensures Fed(bytes, deltas + [d]) == Fed(bytes, deltas) + Label(d.reasoning, d.text)
    ensures Thought(thoughts, deltas + [d]) == Thought(thoughts, deltas) + if d.reasoning then Label(true, d.text) else []
  {
    assert (deltas + [d])[..|deltas|] == deltas;
  }

  lemma {:induction false} FedIs(bytes: seq<Byte>, deltas: seq<Delta>)
    ensures Fed(bytes, deltas) == bytes + BytesOf(deltas)
  {
    if deltas != [] {
      var past, d := deltas[..|deltas| - 1], deltas[|deltas| - 1];
      FedIs(bytes, past);
      Assoc(bytes, BytesOf(past), Label(d.reasoning, d.text));
    }
  }

  lemma {:induction false} ThoughtIs(thoughts: seq<Byte>, deltas: seq<Delta>)
    ensures Thought(thoughts, deltas) == thoughts + Thinking(BytesOf(deltas))
  {
    if deltas != [] {
      var past, d := deltas[..|deltas| - 1], deltas[|deltas| - 1];
      ThoughtIs(thoughts, past);
      PieceArrives(BytesOf(past), d.reasoning, d.text);
      Assoc(thoughts, Thinking(BytesOf(past)), if d.reasoning then Label(true, d.text) else []);
    }
  }

  /** The text a client receives, and the reasoning that was embedded in the content. */
  function TextOf(messages: seq<Message>): string {
    if messages == [] then ""
    else
      var last := messages[|messages| - 1];
      TextOf(messages[..|messages| - 1]) + if last.TextDelta? then last.text else ""
  }

  function EmbeddedOf(messages: seq<Message>): string {
    if messages == [] then ""
    else
      var last := messages[|messages| - 1];
      EmbeddedOf(messages[..|messages| - 1]) + if last.ReasoningDelta? && last.embedded then last.text else ""
  }

  /** All reasoning a client receives, in order of arrival; each byte tells whether it was embedded. */
  function ThoughtsOf(messages: seq<Message>): seq<Byte> {
    if messages == [] then []
    else
      var last := messages[|messages| - 1];
      ThoughtsOf(messages[..|messages| - 1]) + if last.ReasoningDelta? then Label(last.embedded, last.text) else []
  }

  /** Text and reasoning as a client receives them. */
  function Received(messages: seq<Message>): seq<Byte> {
    if messages == [] then []
    else
      Received(messages[..|messages| - 1]) +
      match messages[|messages| - 1]
      case TextDelta(text) => Label(false, text)
      case ReasoningDelta(text, _) => Label(true, text)
      case ToolCallDelta(_) => []
  }

  /** The tool calls a client receives. */
  function CallsOf(messages: seq<Message>): seq<CallState> {
    if messages == [] then []
    else
      var calls, last := CallsOf(messages[..|messages| - 1]), messages[|messages| - 1];
      if last.ToolCallDelta? then calls + [last.call] else calls
  }

  /** The same text and the same reasoning. */
  predicate Alike(a: seq<Message>, b: seq<Message>) {
    TextOf(a) == TextOf(b) && EmbeddedOf(a) == EmbeddedOf(b) && ThoughtsOf(a) == ThoughtsOf(b) && Received(a) == Received(b)
  }

  lemma CallAppended(messages: seq<Message>, call: CallState)
    ensures Alike(messages + [ToolCallDelta(call)], messages)
    ensures CallsOf(messages + [ToolCallDelta(call)]) == CallsOf(messages) + [call]
  {
    MessageAppended(messages, ToolCallDelta(call));
  }

  function Deltas(states: seq<CallState>): seq<Message> {
    seq(|states|, i requires 0 <= i < |states| => ToolCallDelta(states[i]))
  }

  lemma {:induction false} CallsAppended(messages: seq<Message>, states: seq<CallState>)
    ensures Alike(messages + Deltas(states), messages) && CallsOf(messages + Deltas(states)) == CallsOf(messages) + states
    decreases |states|
  {
    if states == [] {
      assert messages + Deltas(states) == messages;
    } else {
      var n := |states| - 1;
      CallsAppended(messages, states[..n]);
      CallAppended(messages + Deltas(states[..n]), states[n]);
      assert messages + Deltas(states) == messages + Deltas(states[..n]) + [ToolCallDelta(states[n])];
      assert CallsOf(messages) + states[..n] + [states[n]] == CallsOf(messages) + states;
    }
  }

  /** Of the messages behind the first `n`, the calls are the last. */
  predicate CallsLast(messages: seq<Message>, n: nat) {
    forall i, j :: n <= i < j < |messages| && messages[i].ToolCallDelta? ==> messages[j].ToolCallDelta?
  }

  lemma MessageAppended(messages: seq<Message>, m: Message)
    ensures Received(messages + [m]) == Received(messages) +
      match m
      case TextDelta(text) => Label(false, text)
      case ReasoningDelta(text, _) => Label(true, text)
      case ToolCallDelta(_) => []
    ensures CallsOf(messages + [m]) == if m.ToolCallDelta? then CallsOf(messages) + [m.call] else CallsOf(messages)
    ensures TextOf(messages + [m]) == TextOf(messages) + if m.TextDelta? then m.text else ""
    ensures EmbeddedOf(messages + [m]) == EmbeddedOf(messages) + if m.ReasoningDelta? && m.embedded then m.text else ""
    ensures ThoughtsOf(messages + [m]) == ThoughtsOf(messages) + if m.ReasoningDelta? then Label(m.embedded, m.text) else []
  {
    assert (messages + [m])[..|messages|] == messages;
  }

  /** The whole content of a stream. */
  function ContentOf(events: seq<Event>): string {
    if events == [] then ""
    else
      var last := events[|events| - 1];
      ContentOf(events[..|events| - 1]) + AddedBy(last)
  }

  function AddedBy(e: Event): string { if e.Content? then e.text else "" }

  // ----- what the events say about reasoning -----

  /** The bytes that `text` decides behind some content. */
  function Anew(tags: Tags, content: string, text: string): seq<Byte>
    requires tags.Ok()
  {
    var r := Decided(tags, false, content);
    Decided(tags, r.thinking, r.pending + text).bytes
  }

  /** The reasoning that one event brings behind some content, field or embedded. */
  function ThoughtsBy(tags: Tags, content: string, e: Event): seq<Byte>
    requires tags.Ok()
  {
    match e
    case Reasoning(text) => Label(false, text)
    case Content(text) => Label(true, Chosen(true, Anew(tags, content, text)))
    case _ => []
  }

  /** The reasoning of a stream in order of arrival, as far as it is decided. */
  function Thoughts(tags: Tags, events: seq<Event>): seq<Byte>
    requires tags.Ok()
  {
    if events == [] then []
    else
      var past := events[..|events| - 1];
      Thoughts(tags, past) + ThoughtsBy(tags, ContentOf(past), events[|events| - 1])
  }

  // ----- what the events say about the order of text and reasoning -----

  function ArrivedBy(tags: Tags, content: string, e: Event): seq<Byte>
    requires tags.Ok()
  {
    match e
    case Reasoning(text) => Label(true, text)
    case Content(text) => Anew(tags, content, text)
    case _ => []
  }

  /** Text and reasoning in order of arrival, as far as they are decided. */
  function Arrived(tags: Tags, events: seq<Event>): seq<Byte>
    requires tags.Ok()
  {
    if events == [] then []
    else
      var past := events[..|events| - 1];
      Arrived(tags, past) + ArrivedBy(tags, ContentOf(past), events[|events| - 1])
  }

  function Values(bytes: seq<Byte>): string { seq(|bytes|, i requires 0 <= i < |bytes| => bytes[i].value) }

  lemma {:induction false} ValuesOfLabel(embedded: bool, s: string)
    ensures Values(Label(embedded, s)) == s
  {
    if s != "" {
      ValuesOfLabel(embedded, s[1..]);
      assert Values(Label(embedded, s)) == [s[0]] + Values(Label(embedded, s[1..]));
    }
  }

  lemma ValuesConcat(a: seq<Byte>, b: seq<Byte>)
    ensures Values(a + b) == Values(a) + Values(b)
  {
  }

  /** It is all of the text that is decided, and the reasoning above. */
  lemma {:induction false} ArrivedIsAll(tags: Tags, events: seq<Event>)
    requires tags.Ok()
    ensures Chosen(false, Arrived(tags, events)) == TextBefore(tags, ContentOf(events))
    ensures Chosen(true, Arrived(tags, events)) == Values(Thoughts(tags, events))
  {
    if events != [] {
      var past, e := events[..|events| - 1], events[|events| - 1];
      var content := ContentOf(past);
      ArrivedIsAll(tags, past);
      ChosenConcat(true, Arrived(tags, past), ArrivedBy(tags, content, e));
      ChosenConcat(false, Arrived(tags, past), ArrivedBy(tags, content, e));
      ValuesConcat(Thoughts(tags, past), ThoughtsBy(tags, content, e));
      match e {
        case Reasoning(text) =>
          ChosenLabel(true, true, text);
          ChosenLabel(false, true, text);
          ValuesOfLabel(false, text);
          assert content + "" == content;
        case Content(text) =>
          ValuesOfLabel(true, Chosen(true, Anew(tags, content, text)));
          Cut(tags, false, content, text);
          ChosenConcat(false, Decided(tags, false, content).bytes, Anew(tags, content, text));
        case _ => assert content + "" == content;
      }
    }
  }

  /** Text and reasoning up to the point at which the stream ends. */
  function ArrivedUpTo(tags: Tags, events: seq<Event>, outcome: Outcome): seq<Byte>
    requires tags.Ok()
  {
    var k := FirstFinish(events);
    if outcome.Truncated? then Arrived(tags, events)
    else if outcome.Refused? && k < |events| then Arrived(tags, events[..k])
    else var r := Decided(tags, false, ContentOf(events)); Arrived(tags, events) + Label(r.thinking, r.pending)
  }

  function Thinking(bytes: seq<Byte>): seq<Byte> { Label(true, Chosen(true, bytes)) }

  function Speaking(bytes: seq<Byte>): seq<Byte> { Label(false, Chosen(false, bytes)) }

  /** What became of the text that was held back: it still waits, or it came in one piece when the first `n`
      bytes had arrived, or it was dropped then. */
  datatype Wait = Waiting | Came(n: nat) | Dropped(n: nat)

  /** All is received in order of arrival, but for the text that was held back. */
  predicate Ordered(received: seq<Byte>, arrived: seq<Byte>, wait: Wait) {
    match wait
    case Waiting => received == Thinking(arrived)
    case Came(n) => n <= |arrived| && received == Thinking(arrived[..n]) + Speaking(arrived[..n]) + arrived[n..]
    case Dropped(n) => n <= |arrived| && received == Thinking(arrived[..n]) + arrived[n..]
  }

  lemma OrderedGrows(received: seq<Byte>, arrived: seq<Byte>, bytes: seq<Byte>, wait: Wait)
    requires Ordered(received, arrived, wait) && !wait.Waiting?
    ensures Ordered(received + bytes, arrived + bytes, wait)
  {
    var n := wait.n;
    var first := Thinking(arrived[..n]) + if wait.Came? then Speaking(arrived[..n]) else [];
    assert received == first + arrived[n..];
    assert (arrived + bytes)[..n] == arrived[..n] && (arrived + bytes)[n..] == arrived[n..] + bytes;
    Assoc(first, arrived[n..], bytes);
    assert wait.Dropped? ==> first == Thinking(arrived[..n]);
  }

  lemma ReleasedNow(arrived: seq<Byte>)
    ensures Ordered(Thinking(arrived) + Speaking(arrived), arrived, Came(|arrived|))
    ensures Ordered(Thinking(arrived), arrived, Dropped(|arrived|))
  {
    assert arrived[..|arrived|] == arrived && arrived[|arrived|..] == [];
  }

  lemma ReasoningKeepsOrder(received: seq<Byte>, arrived: seq<Byte>, wait: Wait, text: string)
    requires Ordered(received, arrived, wait)
    ensures Ordered(received + Label(true, text), arrived + Label(true, text), wait)
  {
    PieceArrives(arrived, true, text);
    if !wait.Waiting? { OrderedGrows(received, arrived, Label(true, text), wait); }
  }

  function NextWait(wait: Wait, b: Buffer, dropped: bool, n: nat): Wait {
    if !wait.Waiting? || (!b.resolved && !b.disabled) then wait else if dropped then Dropped(n) else Came(n)
  }

  predicate Awaited(b: Buffer, arrived: seq<Byte>, wait: Wait) {
    b.given == Chosen(false, arrived) && (wait.Waiting? <==> !b.resolved && !b.disabled)
  }

  /** A piece of text while all of the text waits: `combined` is what `capture` looks at. */
  lemma HeldTextKeepsOrder(arrived: seq<Byte>, combined: string, piece: string)
    requires combined == Chosen(false, arrived) + piece
    ensures var now := arrived + Label(false, piece);
      && Ordered(Thinking(arrived), now, Waiting)
      && Ordered(Thinking(arrived) + Label(false, combined), now, Came(|now|))
      && Ordered(Thinking(arrived), now, Dropped(|now|))
  {
    var now := arrived + Label(false, piece);
    PieceArrives(arrived, false, piece);
    assert Thinking(arrived) + [] == Thinking(arrived);
    ReleasedNow(now);
  }

  lemma CapturedByState(prolog: string, b: Buffer, remembers: bool, piece: string)
    ensures var (after, output, captured) := Captured(prolog, b, remembers, piece);
      && after.given == b.given + piece && after.resolved == b.resolved
      && (b.resolved || b.disabled ==> after.disabled == b.disabled && output == piece && !captured)
      && (!b.resolved && !b.disabled ==>
            if after.disabled then captured || output == b.text + piece else captured || output == "")
  {
  }

  lemma TextKeepsOrder(prolog: string, b: Buffer, remembers: bool, received: seq<Byte>, arrived: seq<Byte>, wait: Wait, piece: string)
    requires Sound(prolog, b, remembers) && Ordered(received, arrived, wait) && Awaited(b, arrived, wait)
    ensures var (after, output, captured) := Captured(prolog, b, remembers, piece);
      var now := arrived + Label(false, piece);
      var next := NextWait(wait, after, captured, |now|);
      Ordered(received + Label(false, if captured then "" else output), now, next) && Awaited(after, now, next)
  {
    CapturedByState(prolog, b, remembers, piece);
    PieceArrives(arrived, false, piece);
    if wait.Waiting? {
      HoldsAll(prolog, b, remembers);
      HeldTextKeepsOrder(arrived, b.text + piece, piece);
      assert received + [] == received;
    } else {
      OrderedGrows(received, arrived, Label(false, piece), wait);
    }
  }

  lemma ResolvingKeepsOrder(prolog: string, b: Buffer, remembers: bool, received: seq<Byte>, arrived: seq<Byte>, wait: Wait, passes: bool)
    requires Sound(prolog, b, remembers) && Ordered(received, arrived, wait) && Awaited(b, arrived, wait)
    ensures
      var next := if wait.Waiting? then if passes then Came(|arrived|) else Dropped(|arrived|) else wait;
      Ordered(received + Label(false, if passes && !b.resolved then b.text else ""), arrived, next)
  {
    assert received + [] == received;
    if wait.Waiting? {
      HoldsAll(prolog, b, remembers);
      ReleasedNow(arrived);
    }
  }

  lemma PieceArrives(arrived: seq<Byte>, reasoning: bool, text: string)
    ensures var now := arrived + Label(reasoning, text);
      && Thinking(now) == Thinking(arrived) + (if reasoning then Label(true, text) else [])
      && Chosen(false, now) == Chosen(false, arrived) + (if reasoning then "" else text)
  {
    ChosenConcat(true, arrived, Label(reasoning, text));
    ChosenConcat(false, arrived, Label(reasoning, text));
    ChosenLabel(true, reasoning, text);
    ChosenLabel(false, reasoning, text);
    LabelConcat(true, Chosen(true, arrived), if reasoning then text else "");
    assert Thinking(arrived) + [] == Thinking(arrived);
  }

  /** The reasoning that only the final flush lets go: a block that was never closed and ends in what
      could have become its tag. */
  function Flushed(tags: Tags, content: string): string
    requires tags.Ok()
  {
    var r := Decided(tags, false, content);
    if r.thinking then r.pending else ""
  }

  /** The texts of the reasoning fields. */
  function FieldsOf(events: seq<Event>): string {
    if events == [] then ""
    else
      var last := events[|events| - 1];
      FieldsOf(events[..|events| - 1]) + if last.Reasoning? then last.text else ""
  }

  /** None of the reasoning fields is missing from it, and nothing of what is embedded in the content. */
  lemma {:induction false} ThoughtsAreAll(tags: Tags, events: seq<Event>)
    requires tags.Ok()
    ensures Chosen(false, Thoughts(tags, events)) == FieldsOf(events)
    ensures Chosen(true, Thoughts(tags, events)) == Chosen(true, Decided(tags, false, ContentOf(events)).bytes)
  {
    if events != [] {
      var past, e := events[..|events| - 1], events[|events| - 1];
      var content := ContentOf(past);
      ThoughtsAreAll(tags, past);
      ChosenConcat(true, Thoughts(tags, past), ThoughtsBy(tags, content, e));
      ChosenConcat(false, Thoughts(tags, past), ThoughtsBy(tags, content, e));
      match e {
        case Reasoning(text) =>
          ChosenLabel(true, false, text);
          ChosenLabel(false, false, text);
          assert content + "" == content;
        case Content(text) =>
          ChosenLabel(true, true, Chosen(true, Anew(tags, content, text)));
          ChosenLabel(false, true, Chosen(true, Anew(tags, content, text)));
          Cut(tags, false, content, text);
          ChosenConcat(true, Decided(tags, false, content).bytes, Anew(tags, content, text));
        case _ => assert content + "" == content;
      }
    }
  }

  /** What has arrived keeps its place: with the lemma above, this leaves one order only. */
  lemma {:induction false} ThoughtsKeepTheirOrder(tags: Tags, events: seq<Event>, k: nat)
    requires tags.Ok() && k <= |events|
    ensures Thoughts(tags, events[..k]) <= Thoughts(tags, events)
  {
    if k < |events| {
      var past := events[..|events| - 1];
      ThoughtsKeepTheirOrder(tags, past, k);
      assert past[..k] == events[..k];
    } else {
      assert events[..k] == events;
    }
  }

  /** The reasoning a stream leaves with the client: up to the finish reason at which it was refused,
      all that is decided if it is cut off, and else all there is. */
  function ThoughtsUpTo(tags: Tags, events: seq<Event>, outcome: Outcome): seq<Byte>
    requires tags.Ok()
  {
    var k := FirstFinish(events);
    if outcome.Truncated? then Thoughts(tags, events)
    else if outcome.Refused? && k < |events| then Thoughts(tags, events[..k])
    else Thoughts(tags, events) + Label(true, Flushed(tags, ContentOf(events)))
  }

  // ----- what the events say about broken calls -----

  /** How many events come before the first finish reason, at which the calls are resolved. */
  function FirstFinish(events: seq<Event>): (k: nat)
    ensures k <= |events| && (k < |events| <==> Finish in events)
  {
    if events == [] then 0
    else
      var k := FirstFinish(events[..|events| - 1]);
      assert events == events[..|events| - 1] + [events[|events| - 1]];
      if k < |events| - 1 || events[|events| - 1].Finish? then k else |events|
  }

  /** The calls so far, and the one whose repair is being waited for. */
  datatype Watch = Watch(calls: Calls, call: Option<nat>, ambiguous: bool)

  predicate Proper(w: Watch) {
    Fits(w.calls) && (w.call.Some? ==> w.call.value < |w.calls.order| && w.calls.order[w.call.value].name != "")
  }

  function Touched(w: Watch, e: Event): (r: Watch)
    requires Proper(w) && e.Tool?
    ensures Proper(r) && e.index in r.calls.at && r.call == w.call && r.ambiguous == w.ambiguous
  {
    w.(calls := Added(w.calls, e.index, e.id, e.name, e.arguments))
  }

  function Noticed(w: Watch, k: nat): (r: Watch)
    requires Proper(w) && k < |w.calls.order|
    ensures Proper(r)
  {
    if !Recoverable(w.calls.order[k]) then w
    else if w.call.Some? && w.call.value != k then w.(ambiguous := true)
    else w.(call := Some(k))
  }

  function Stepped(w: Watch, e: Event, enabled: bool): (r: Watch)
    requires Proper(w)
    ensures Proper(r) && (!enabled ==> r.call == w.call)
  {
    if !e.Tool? then w
    else if !enabled then Touched(w, e)
    else Noticed(Touched(w, e), Touched(w, e).calls.at[e.index])
  }

  /** The calls after events without a finish reason. */
  function WatchOf(events: seq<Event>, enabled: bool): (w: Watch)
    ensures Proper(w) && (!enabled ==> w.call.None?)
  {
    if events == [] then Watch(NO_CALLS, None, false)
    else Stepped(WatchOf(events[..|events| - 1], enabled), events[|events| - 1], enabled)
  }

  /** This delta leaves a native call in the broken shape. */
  predicate Breaks(events: seq<Event>, i: nat)
    requires i < |events|
  {
    events[i].Tool? &&
    var w := Touched(WatchOf(events[..i], true), events[i]);
    Recoverable(w.calls.order[w.calls.at[events[i].index]])
  }

  lemma BreaksEarlier(events: seq<Event>, n: nat, i: nat)
    requires i < n <= |events|
    ensures Breaks(events[..n], i) == Breaks(events, i)
  {
    assert events[..n][..i] == events[..i];
  }

  ghost predicate SomeBreaks(events: seq<Event>) { exists i :: 0 <= i < |events| && Breaks(events, i) }

  lemma SomeBreaksStep(events: seq<Event>)
    requires events != []
    ensures SomeBreaks(events) <==> SomeBreaks(events[..|events| - 1]) || Breaks(events, |events| - 1)
  {
    var n := |events| - 1;
    forall i: nat | i < n ensures Breaks(events[..n], i) == Breaks(events, i) {
      BreaksEarlier(events, n, i);
    }
  }

  /** A call is waited for if and only if some delta broke one. */
  lemma {:induction false} WatchesIffBroken(events: seq<Event>)
    ensures WatchOf(events, true).call.Some? <==> SomeBreaks(events)
  {
    if events != [] {
      WatchesIffBroken(events[..|events| - 1]);
      WatchStep(events);
      SomeBreaksStep(events);
    }
  }

  function FirstBreak(events: seq<Event>): (k: nat)
    ensures k <= |events| && (k < |events| ==> Breaks(events, k))
  {
    if events == [] then 0
    else
      var n := |events| - 1;
      var k := FirstBreak(events[..n]);
      assert k < n ==> Breaks(events[..n], k) == Breaks(events, k) by {
        if k < n { BreaksEarlier(events, n, k); }
      }
      if k < n || Breaks(events, n) then k else |events|
  }

  lemma {:induction false} NoneBreaks(events: seq<Event>)
    requires FirstBreak(events) == |events|
    ensures !SomeBreaks(events)
  {
    if events != [] {
      NoneBreaks(events[..|events| - 1]);
      SomeBreaksStep(events);
    }
  }

  /** The call that this delta belongs to. */
  function Target(events: seq<Event>, i: nat): nat
    requires i < |events| && events[i].Tool?
  {
    Touched(WatchOf(events[..i], true), events[i]).calls.at[events[i].index]
  }

  ghost predicate AnotherBreaks(events: seq<Event>, k: nat) {
    exists i :: 0 <= i < |events| && Breaks(events, i) && Target(events, i) != k
  }

  lemma AnotherBreaksStep(events: seq<Event>, k: nat)
    requires events != []
    ensures AnotherBreaks(events, k) <==>
      AnotherBreaks(events[..|events| - 1], k)
      || (Breaks(events, |events| - 1) && Target(events, |events| - 1) != k)
  {
    var n := |events| - 1;
    forall i: nat | i < n ensures Breaks(events[..n], i) == Breaks(events, i) && events[..n][..i] == events[..i] {
      BreaksEarlier(events, n, i);
    }
  }

  lemma WatchStep(events: seq<Event>)
    requires events != []
    ensures var past, w := WatchOf(events[..|events| - 1], true), WatchOf(events, true);
      if !Breaks(events, |events| - 1) then w.call == past.call && w.ambiguous == past.ambiguous
      else
        var k := Target(events, |events| - 1);
        && w.call == (if past.call.Some? then past.call else Some(k))
        && w.ambiguous == (past.ambiguous || w.call != Some(k))
  {
    var past, e := WatchOf(events[..|events| - 1], true), events[|events| - 1];
    assert WatchOf(events, true) == Stepped(past, e, true);
    if e.Tool? {
      var k := Target(events, |events| - 1);
      assert Stepped(past, e, true) == Noticed(Touched(past, e), k);
    }
  }

  /** It is the first call that was broken, and it is ambiguous if and only if another one was. */
  lemma {:induction false} FirstBrokenIsWatched(events: seq<Event>)
    ensures var w, k := WatchOf(events, true), FirstBreak(events);
      && w.call == (if k < |events| then Some(Target(events, k)) else None)
      && (w.ambiguous <==> w.call.Some? && AnotherBreaks(events, w.call.value))
  {
    if events != [] {
      var past := events[..|events| - 1];
      var k := FirstBreak(past);
      FirstBrokenIsWatched(past);
      WatchStep(events);
      if k < |past| {
        assert past[..k] == events[..k];
        AnotherBreaksStep(events, Target(events, k));
      } else if Breaks(events, |past|) {
        NoneBreaks(past);
        AnotherBreaksStep(events, Target(events, |past|));
      }
    }
  }

  /** What becomes of the answer text `given` that had been told apart when the calls are resolved. */
  datatype Verdict = Passes | Repairs(arguments: string) | Refuses

  predicate Waits(prolog: string, w: Watch, given: string)
    requires Proper(w)
  {
    w.call.Some? && Stopped(w.calls.order[w.call.value]) && given != "" && Compatible(prolog, given)
  }

  /** `parse` stands for the fallback parser. */
  function Judge(parse: string -> Option<string>, prolog: string, w: Watch, given: string): Verdict
    requires Proper(w)
  {
    if !Waits(prolog, w, given) then Passes
    else if w.ambiguous || |given| > CAPTURE_LIMIT then Refuses
    else
      match parse(given)
      case None => Refuses
      case Some(arguments) => Repairs(arguments)
  }

  ghost predicate IsFallback(parse: string -> Option<string>) {
    forall s {:trigger ControlTool.Parsed(s)} :: parse(s) == ControlTool.Parsed(s)
  }

  function Withheld(v: Verdict, given: string): string { if v.Repairs? then given else "" }

  /** A call that was broken is whole again, and text that could have been its copy may have overrun the
      buffer meanwhile. */
  predicate Overran(prolog: string, w: Watch, given: string)
    requires Proper(w)
  {
    w.call.Some? && !Stopped(w.calls.order[w.call.value]) && Compatible(prolog, given) && |given| > CAPTURE_LIMIT
  }

  /** The answer text that is decided by some content, and all of it. */
  function TextBefore(tags: Tags, content: string): string
    requires tags.Ok()
  {
    Chosen(false, Decided(tags, false, content).bytes)
  }

  function WholeText(tags: Tags, content: string): string
    requires tags.Ok()
  {
    Chosen(false, Finished(tags, false, content))
  }

  function WatchAt(events: seq<Event>, enabled: bool): (w: Watch)
    ensures Proper(w) && (!enabled ==> w.call.None?)
  {
    WatchOf(events[..FirstFinish(events)], enabled)
  }

  function GivenAt(tags: Tags, events: seq<Event>): string
    requires tags.Ok()
  {
    var k := FirstFinish(events);
    if k < |events| then TextBefore(tags, ContentOf(events[..k])) else WholeText(tags, ContentOf(events))
  }

  /** With tools disabled, or if no delta before the first finish reason breaks a call, all text passes. */
  lemma UnbrokenPasses(parse: string -> Option<string>, prolog: string, events: seq<Event>, enabled: bool, given: string)
    requires !enabled || !SomeBreaks(events[..FirstFinish(events)])
    ensures var w := WatchAt(events, enabled);
      !Overran(prolog, w, given) && Judge(parse, prolog, w, given) == Passes
  {
    if enabled { WatchesIffBroken(events[..FirstFinish(events)]); }
  }

  /** What `resolve` answers, looking at the buffer, says the same as the verdict, which looks at the events. */
  lemma ResolutionIsJudged(parse: string -> Option<string>, prolog: string, b: Buffer, w: Watch, r: Resolution)
    requires Proper(w) && Sound(prolog, b, w.call.Some?) && !b.resolved && (b.off ==> w.call.None?)
    requires
      var needs := w.call.Some? && (b.text != "" || b.overflow) && Stopped(w.calls.order[w.call.value]);
      && (r.Pass? <==> !needs) && (r.Ambiguous? <==> needs && (w.ambiguous || b.overflow))
      && (r.Repaired? ==> parse(b.text).Some?) && (r.Incomplete? ==> parse(b.text).None?)
    ensures
      var verdict := Judge(parse, prolog, w, b.given);
      && (verdict.Passes? <==> r.Pass?) && (verdict.Repairs? <==> r.Repaired?)
      && (verdict.Repairs? ==> parse(b.text) == Some(verdict.arguments))
      && (!Overran(prolog, w, b.given) && !verdict.Refuses? ==>
            Withheld(verdict, b.given) == b.lost + if r.Pass? then "" else b.text)
  {
  }

  /** One more event: nothing changes what was resolved before. */
  lemma PastGrows(tags: Tags, past: seq<Event>, e: Event, enabled: bool)
    requires tags.Ok()
    ensures var now := past + [e];
      && ContentOf(now) == ContentOf(past) + AddedBy(e)
      && (FirstFinish(now) < |now| <==> FirstFinish(past) < |past| || e.Finish?)
      && WatchAt(now, enabled)
         == (if FirstFinish(now) < |now| then WatchAt(past, enabled) else Stepped(WatchAt(past, enabled), e, enabled))
      && (FirstFinish(now) < |now| ==>
            GivenAt(tags, now)
            == if FirstFinish(past) < |past| then GivenAt(tags, past) else TextBefore(tags, ContentOf(past)))
  {
    var now := past + [e];
    var k := FirstFinish(past);
    assert now[..|now| - 1] == past && now[..k] == past[..k] && past[..|past|] == past && now[..|now|] == now;
  }

  /** The calls as they are, and those that were sent. */
  datatype Tally = Tally(calls: Calls, sent: seq<CallState>)

  function TallyOf(s: Summary): Tally { if s.Resolved? then s.tally else Tally(s.watch.calls, []) }

  function Sending(t: Tally): Tally { Tally(Completed(t.calls), t.sent + Due(t.calls.order)) }

  /** The calls when they are resolved: one may have been repaired. */
  function Mended(v: Verdict, w: Watch): (r: Calls)
    requires Proper(w)
    ensures Fits(r)
  {
    if v.Repairs? && w.call.Some? then
      var k := w.call.value;
      w.calls.(order := w.calls.order[k := w.calls.order[k].(arguments := v.arguments)])
    else w.calls
  }

  /** What a consumer is made with. */
  datatype Setup = Setup(tags: Tags, enabled: bool, prolog: string, parse: string -> Option<string>)

  /** What the events so far come to, before and after the calls are resolved. */
  datatype Summary =
    | Unresolved(content: string, arrived: seq<Byte>, thoughts: seq<Byte>, watch: Watch)
    | Resolved(content: string, arrived: seq<Byte>, thoughts: seq<Byte>, watch: Watch, given: string, tally: Tally)

  predicate Coherent(s: Summary) { Proper(s.watch) && (s.Resolved? ==> Fits(s.tally.calls)) }

  const NO_EVENTS := Unresolved("", [], [], Watch(NO_CALLS, None, false))

  /** The calls after they were sent, when what they are resolved on is `given`. */
  function Sent(setup: Setup, s: Summary, given: string): (r: Tally)
    requires Coherent(s)
    ensures Fits(r.calls)
  {
    Sending(if s.Resolved? then s.tally else Tally(Mended(Judge(setup.parse, setup.prolog, s.watch, given), s.watch), []))
  }

  function Continued(setup: Setup, s: Summary, e: Event): (r: Summary)
    requires setup.tags.Ok() && Coherent(s)
    ensures Coherent(r)
  {
    var content, arrived := s.content + AddedBy(e), s.arrived + ArrivedBy(setup.tags, s.content, e);
    var thoughts := s.thoughts + ThoughtsBy(setup.tags, s.content, e);
    if e.Finish? then
      var given := if s.Resolved? then s.given else TextBefore(setup.tags, s.content);
      Resolved(content, arrived, thoughts, s.watch, given, Sent(setup, s, given))
    else if s.Unresolved? then
      Unresolved(content, arrived, thoughts, Stepped(s.watch, e, setup.enabled))
    else
      var calls := if e.Tool? then Added(s.tally.calls, e.index, e.id, e.name, e.arguments) else s.tally.calls;
      Resolved(content, arrived, thoughts, s.watch, s.given, s.tally.(calls := calls))
  }

  function SummaryOf(setup: Setup, events: seq<Event>): (s: Summary)
    requires setup.tags.Ok()
    ensures Coherent(s) && (!setup.enabled ==> s.watch.call.None?)
  {
    if events == [] then NO_EVENTS
    else Continued(setup, SummaryOf(setup, events[..|events| - 1]), events[|events| - 1])
  }

  /** On what text the calls are resolved, if no more events come. */
  function FinalGiven(tags: Tags, s: Summary): string
    requires tags.Ok()
  {
    if s.Resolved? then s.given else WholeText(tags, s.content)
  }

  /** The calls at the end of a stream. */
  function Finally(setup: Setup, events: seq<Event>): (r: Tally)
    requires setup.tags.Ok()
  {
    Sent(setup, SummaryOf(setup, events), GivenAt(setup.tags, events))
  }

  // ----- which calls are sent -----

  /** What the events mean to the accumulator. */
  function StepsOf(events: seq<Event>): seq<Step> {
    if events == [] then []
    else
      var steps := StepsOf(events[..|events| - 1]);
      match events[|events| - 1]
      case Tool(index, id, name, arguments) => steps + [Fragment(index, id, name, arguments)]
      case Finish => steps + [Delivery]
      case _ => steps
  }

  lemma {:induction false} UnresolvedIsUnsent(setup: Setup, events: seq<Event>)
    requires setup.tags.Ok()
    ensures var s := SummaryOf(setup, events);
      s.Unresolved? ==> forall call :: call in s.watch.calls.order ==> !call.emitted
  {
    if events != [] { UnresolvedIsUnsent(setup, events[..|events| - 1]); }
  }

  lemma {:induction false} NoneIsSent(order: seq<CallState>)
    requires forall call :: call in order ==> !call.emitted
    ensures Emitted(order) == multiset{}
  {
    if order != [] { NoneIsSent(order[..|order| - 1]); }
  }

  /** Sending keeps the books: what was sent, once each, is what is marked as sent. */
  ghost predicate Balanced(t: Tally) { multiset(t.sent) == Emitted(t.calls.order) }

  lemma SendingBalances(t: Tally)
    requires Balanced(t)
    ensures Balanced(Sending(t)) && forall call :: call in Sending(t).calls.order && call.name != "" ==> call.emitted
  {
    DeliveryMarksDue(t.calls.order);
    MarkedIsEmitted(t.calls.order);
  }

  lemma SentBalances(setup: Setup, events: seq<Event>, given: string)
    requires setup.tags.Ok() && (SummaryOf(setup, events).Resolved? ==> Balanced(SummaryOf(setup, events).tally))
    ensures var t := Sent(setup, SummaryOf(setup, events), given);
      Balanced(t) && forall call :: call in t.calls.order && call.name != "" ==> call.emitted
  {
    var s := SummaryOf(setup, events);
    if s.Resolved? {
      SendingBalances(s.tally);
    } else {
      var calls := Mended(Judge(setup.parse, setup.prolog, s.watch, given), s.watch);
      UnresolvedIsUnsent(setup, events);
      NoneIsSent(calls.order);
      SendingBalances(Tally(calls, []));
    }
  }

  lemma {:induction false} ResolvedBalances(setup: Setup, events: seq<Event>)
    requires setup.tags.Ok()
    ensures var s := SummaryOf(setup, events); s.Resolved? ==> Balanced(s.tally)
  {
    if events != [] {
      var past, e := events[..|events| - 1], events[|events| - 1];
      var s := SummaryOf(setup, past);
      ResolvedBalances(setup, past);
      if e.Finish? {
        SentBalances(setup, past, if s.Resolved? then s.given else TextBefore(setup.tags, s.content));
      } else if e.Tool? && s.Resolved? {
        FragmentDeliversNothing(s.tally.calls, e.index, e.id, e.name, e.arguments);
      }
    }
  }

  /** Every call with a name is sent, once, and as it is at the end. */
  lemma NamedCallsAreSentOnce(setup: Setup, events: seq<Event>)
    requires setup.tags.Ok()
    ensures var t := Finally(setup, events);
      && multiset(t.sent) == Emitted(t.calls.order)
      && forall call :: call in t.calls.order && call.name != "" ==> call.emitted
  {
    ResolvedBalances(setup, events);
    SentBalances(setup, events, GivenAt(setup.tags, events));
  }

  predicate RepairsNothing(setup: Setup, s: Summary, given: string)
    requires Coherent(s)
  {
    !Judge(setup.parse, setup.prolog, s.watch, given).Repairs?
  }

  lemma TallyGrows(setup: Setup, s: Summary, e: Event)
    requires setup.tags.Ok() && Coherent(s)
    requires var next := Continued(setup, s, e); next.Resolved? ==> RepairsNothing(setup, next, next.given)
    ensures TallyOf(Continued(setup, s, e)) ==
      match e
      case Tool(index, id, name, arguments) => TallyOf(s).(calls := Added(TallyOf(s).calls, index, id, name, arguments))
      case Finish => Sending(TallyOf(s))
      case _ => TallyOf(s)
  {
  }

  lemma {:induction false} TallyIsRun(setup: Setup, events: seq<Event>)
    requires setup.tags.Ok()
    requires var s := SummaryOf(setup, events); s.Resolved? ==> RepairsNothing(setup, s, s.given)
    ensures var t := TallyOf(SummaryOf(setup, events));
      t.calls == Run(StepsOf(events)) && t.sent == DeliveredBy(StepsOf(events))
  {
    if events != [] {
      var past := StepsOf(events[..|events| - 1]);
      TallyIsRun(setup, events[..|events| - 1]);
      TallyGrows(setup, SummaryOf(setup, events[..|events| - 1]), events[|events| - 1]);
      match events[|events| - 1] {
        case Tool(index, id, name, arguments) => RunNext(past, Fragment(index, id, name, arguments));
        case Finish => RunNext(past, Delivery);
        case _ =>
      }
    }
  }

  lemma RunNext(past: seq<Step>, step: Step)
    ensures Run(past + [step]) == After(Run(past), step)
    ensures DeliveredBy(past + [step]) == DeliveredBy(past) + if step.Delivery? then Due(Run(past).order) else []
  {
    assert (past + [step])[..|past|] == past;
  }

  /** Without a repair, the calls are the accumulator's, delivered at each finish reason and at the end. */
  lemma UnrepairedCallsAreTheRuns(setup: Setup, events: seq<Event>)
    requires setup.tags.Ok() && RepairsNothing(setup, SummaryOf(setup, events), GivenAt(setup.tags, events))
    ensures var steps := StepsOf(events) + [Delivery];
      Finally(setup, events) == Tally(Run(steps), DeliveredBy(steps))
  {
    RunNext(StepsOf(events), Delivery);
    SummaryIs(setup, events);
    TallyIsRun(setup, events);
  }

  lemma SummaryGrows(setup: Setup, past: seq<Event>, e: Event)
    requires setup.tags.Ok()
    ensures SummaryOf(setup, past + [e]) == Continued(setup, SummaryOf(setup, past), e)
  {
    assert (past + [e])[..|past|] == past;
  }

  lemma {:induction false} SummaryIs(setup: Setup, events: seq<Event>)
    requires setup.tags.Ok()
    ensures var s := SummaryOf(setup, events);
      && s.content == ContentOf(events) && s.watch == WatchAt(events, setup.enabled)
      && s.arrived == Arrived(setup.tags, events) && s.thoughts == Thoughts(setup.tags, events)
      && (s.Resolved? <==> Finish in events) && GivenAt(setup.tags, events) == FinalGiven(setup.tags, s)
  {
    if events == [] {
      assert events[..0] == [];
    } else {
      var past, e := events[..|events| - 1], events[|events| - 1];
      assert events == past + [e];
      SummaryIs(setup, past);
      PastGrows(setup.tags, past, e, setup.enabled);
      AllAt(setup.tags, events);
    }
  }

  lemma AllAt(tags: Tags, events: seq<Event>)
    requires tags.Ok()
    ensures FirstFinish(events) == |events| ==> GivenAt(tags, events) == WholeText(tags, ContentOf(events))
  {
    assert events[..|events|] == events;
  }

  /** What every prefix of the events comes to. */
  predicate IsTrace(setup: Setup, events: seq<Event>, trace: seq<Summary>)
    requires setup.tags.Ok()
  {
    && |trace| == |events| + 1 && trace[0] == NO_EVENTS
    && (forall i :: 0 <= i < |trace| ==> Coherent(trace[i]))
    && (forall i :: 0 <= i < |events| ==> trace[i + 1] == Continued(setup, trace[i], events[i]))
  }

  lemma TraceGrows(setup: Setup, past: seq<Event>, e: Event, trace: seq<Summary>)
    requires setup.tags.Ok() && IsTrace(setup, past, trace) && trace[|past|] == SummaryOf(setup, past)
    ensures var grown := trace + [SummaryOf(setup, past + [e])];
      IsTrace(setup, past + [e], grown) && grown[|past| + 1] == SummaryOf(setup, past + [e])
  {
    SummaryGrows(setup, past, e);
  }

  lemma {:induction false} TraceOf(setup: Setup, events: seq<Event>) returns (trace: seq<Summary>)
    requires setup.tags.Ok()
    ensures IsTrace(setup, events, trace) && trace[|events|] == SummaryOf(setup, events)
  {
    if events == [] {
      trace := [NO_EVENTS];
    } else {
      var past, e := events[..|events| - 1], events[|events| - 1];
      assert events == past + [e];
      var before := TraceOf(setup, past);
      TraceGrows(setup, past, e, before);
      trace := before + [SummaryOf(setup, past + [e])];
    }
  }

  /** Once the calls are resolved, later events do not change on what. */
  lemma {:induction false} ResolvedStays(setup: Setup, events: seq<Event>, trace: seq<Summary>, i: nat, j: nat)
    requires setup.tags.Ok() && IsTrace(setup, events, trace) && i <= j <= |events| && trace[i].Resolved?
    ensures trace[j].Resolved? && trace[j].watch == trace[i].watch && trace[j].given == trace[i].given
    decreases j
  {
    if i < j { ResolvedStays(setup, events, trace, i, j - 1); }
  }

  lemma {:induction false} TraceAt(setup: Setup, events: seq<Event>, trace: seq<Summary>, i: nat)
    requires setup.tags.Ok() && IsTrace(setup, events, trace) && i <= |events|
    ensures trace[i] == SummaryOf(setup, events[..i])
  {
    if i > 0 {
      var k := i - 1;
      TraceAt(setup, events, trace, k);
      SummaryGrows(setup, events[..k], events[k]);
      assert trace[k + 1] == Continued(setup, trace[k], events[k]);
      assert events[..i] == events[..k] + [events[k]];
    }
  }

  lemma {:induction false} FirstFinishIs(events: seq<Event>, k: nat)
    requires k < |events| && events[k].Finish? && Finish !in events[..k]
    ensures FirstFinish(events) == k
  {
    var past := events[..|events| - 1];
    if k < |past| {
      assert past[..k] == events[..k];
      FirstFinishIs(past, k);
    }
  }

  /** The finish reason at which it gives up is the first. */
  lemma RefusedAt(setup: Setup, events: seq<Event>, trace: seq<Summary>, k: nat)
    requires setup.tags.Ok() && IsTrace(setup, events, trace)
    requires k < |events| && events[k].Finish? && trace[k].Unresolved?
    ensures FirstFinish(events) == k
    ensures trace[k].arrived == Arrived(setup.tags, events[..k]) && trace[k].thoughts == Thoughts(setup.tags, events[..k])
  {
    TraceAt(setup, events, trace, k);
    SummaryIs(setup, events[..k]);
    FirstFinishIs(events, k);
  }

  /** On what the calls are resolved if it gives up there. */
  lemma ResolvedFor(setup: Setup, events: seq<Event>, trace: seq<Summary>, k: nat)
    requires setup.tags.Ok() && IsTrace(setup, events, trace) && trace[|events|] == SummaryOf(setup, events)
    requires k < |events| && events[k].Finish? && trace[k].Unresolved?
    ensures Finish in events && WatchAt(events, setup.enabled) == trace[k].watch
    ensures GivenAt(setup.tags, events) == TextBefore(setup.tags, trace[k].content)
    ensures ThoughtsUpTo(setup.tags, events, Refused) == trace[k].thoughts
    ensures ArrivedUpTo(setup.tags, events, Refused) == trace[k].arrived
  {
    SummaryIs(setup, events);
    RefusedAt(setup, events, trace, k);
    assert trace[k + 1] == Continued(setup, trace[k], events[k]);
    ResolvedStays(setup, events, trace, k + 1, |events|);
  }

  class Consumer {
    const splitter: Splitter
    const recovery: ControlToolRecovery
    const tools: ToolCallAccumulator
    const toolsEnabled: bool
    ghost const parse: string -> Option<string>
    var messages: seq<Message>

    ghost var wait: Wait

    constructor (toolsEnabled: bool)
      ensures Fresh() && fresh(splitter) && fresh(recovery) && fresh(tools) && tools.Repr == {}
      ensures this.toolsEnabled == toolsEnabled && splitter.tags == Tags("<think>", "</think>")
      ensures recovery.prolog == "<tool_call><function=write_stdin><parameter=chars>\U{3}</parameter>"
    {
      parse := s => ControlTool.Parsed(s);
      this.toolsEnabled := toolsEnabled;
      splitter := new Splitter();
      recovery := new ControlToolRecovery(PROLOG, !toolsEnabled);
      tools := new ToolCallAccumulator();
      messages, wait := [], if toolsEnabled then Waiting else Came(0);
    }

    /** The channels carry what the splitter has decided so far. */
    ghost predicate Valid(bytes: seq<Byte>)
      reads this, splitter, recovery
    {
      && splitter.tags.Ok() && recovery.Valid()
      && recovery.given == Chosen(false, bytes)
      && EmbeddedOf(messages) == Chosen(true, bytes)
      && TextOf(messages) == recovery.passed
    }

    ghost function Made(): Setup { Setup(splitter.tags, toolsEnabled, recovery.prolog, parse) }

    ghost predicate Linked(w: Watch)
      reads recovery, tools, tools.order
    {
      && IsFallback(parse) && tools.Valid() && recovery.off == !toolsEnabled && Proper(w)
      && (recovery.call != null ==> recovery.call in tools.order)
      && (w.call.Some? ==> toolsEnabled)
    }

    ghost predicate Follows(w: Watch)
      reads recovery, tools, tools.order
    {
      && Linked(w) && !recovery.resolved
      && tools.Abs() == w.calls && recovery.ambiguous == w.ambiguous
      && recovery.call == if w.call.Some? then tools.order[w.call.value] else null
    }

    ghost predicate Arrives(arrived: seq<Byte>)
      reads this
    {
      Ordered(Received(messages), arrived, wait)
    }

    ghost predicate InOrder(arrived: seq<Byte>)
      reads this, recovery
    {
      Arrives(arrived) && Awaited(recovery.Abs(), arrived, wait)
    }

    ghost predicate Progress(w: Watch, given: string)
      reads this, recovery
    {
      Progressed(recovery.prolog, toolsEnabled, w.call.Some?, given, recovery.lost, TextOf(messages))
    }

    /** The calls are resolved: text was withheld only for a call that it repaired. */
    ghost predicate Settles(w: Watch, given: string, calls: Calls)
      reads recovery, tools, tools.order
    {
      && Linked(w) && recovery.resolved && tools.Abs() == calls
      && var verdict := Judge(parse, recovery.prolog, w, given);
      && !verdict.Refuses? && (!Overran(recovery.prolog, w, given) ==> recovery.lost == Withheld(verdict, given))
      && (verdict.Repairs? ==>
            recovery.call != null && recovery.call.arguments == verdict.arguments && recovery.call.emitted)
    }

    method EmitTextDelta(text: string)
      modifies this
      ensures TextOf(messages) == old(TextOf(messages)) + text && EmbeddedOf(messages) == old(EmbeddedOf(messages))
      ensures ThoughtsOf(messages) == old(ThoughtsOf(messages)) && CallsOf(messages) == old(CallsOf(messages))
      ensures messages == old(messages) + if text == "" then [] else [TextDelta(text)]
      ensures Received(messages) == old(Received(messages)) + Label(false, text) && wait == old(wait)
    {
      assert Received(messages) + [] == Received(messages);
      if text != "" {
        MessageAppended(messages, TextDelta(text));
        messages := messages + [TextDelta(text)];
      }
    }

    method EmitText(text: string, ghost arrived: seq<Byte>)
      requires recovery.Valid() && TextOf(messages) == recovery.passed && InOrder(arrived)
      modifies this
      modifies recovery`text, recovery`overflow, recovery`disabled, recovery`given, recovery`passed, recovery`lost
      ensures recovery.Valid() && TextOf(messages) == recovery.passed && EmbeddedOf(messages) == old(EmbeddedOf(messages))
      ensures recovery.given == old(recovery.given) + text && (recovery.resolved ==> recovery.lost == old(recovery.lost))
      ensures ThoughtsOf(messages) == old(ThoughtsOf(messages)) && CallsOf(messages) == old(CallsOf(messages))
      ensures InOrder(arrived + Label(false, text))
    {
      ghost var received, b := Received(messages), recovery.Abs();
      CapturedKeeps(recovery.prolog, b, recovery.call != null, text);
      TextKeepsOrder(recovery.prolog, b, recovery.call != null, received, arrived, wait, text);
      var output, captured := recovery.Capture(text);
      if !captured {
        EmitTextDelta(output);
      }
      assert received + [] == received;
      wait := NextWait(wait, recovery.Abs(), captured, |arrived + Label(false, text)|);
    }

    method EmitReasoning(text: string, embedded: bool, ghost arrived: seq<Byte>)
      requires InOrder(arrived)
      modifies this
      ensures InOrder(arrived + Label(true, text))
      ensures TextOf(messages) == old(TextOf(messages))
      ensures EmbeddedOf(messages) == old(EmbeddedOf(messages)) + if embedded then text else ""
      ensures ThoughtsOf(messages) == old(ThoughtsOf(messages)) + Label(embedded, text)
      ensures CallsOf(messages) == old(CallsOf(messages))
    {
      ghost var received := Received(messages);
      if text != "" {
        MessageAppended(messages, ReasoningDelta(text, embedded));
        messages := messages + [ReasoningDelta(text, embedded)];
      }
      assert received + [] == received;
      PieceArrives(arrived, true, text);
      ReasoningKeepsOrder(received, arrived, wait, text);
    }

    method EmitOne(delta: Delta, ghost bytes: seq<Byte>, ghost arrived: seq<Byte>)
      requires Valid(bytes) && InOrder(arrived)
      modifies this
      modifies recovery`text, recovery`overflow, recovery`disabled, recovery`given, recovery`passed, recovery`lost
      ensures Valid(bytes + Label(delta.reasoning, delta.text)) && InOrder(arrived + Label(delta.reasoning, delta.text))
      ensures recovery.resolved ==> recovery.lost == old(recovery.lost)
      ensures ThoughtsOf(messages) == old(ThoughtsOf(messages)) + if delta.reasoning then Label(true, delta.text) else []
      ensures CallsOf(messages) == old(CallsOf(messages))
    {
      ChosenConcat(true, bytes, Label(delta.reasoning, delta.text));
      ChosenConcat(false, bytes, Label(delta.reasoning, delta.text));
      ChosenLabel(true, delta.reasoning, delta.text);
      ChosenLabel(false, delta.reasoning, delta.text);
      if delta.reasoning {
        EmitReasoning(delta.text, true, arrived);
      } else {
        EmitText(delta.text, arrived);
      }
    }

    /** What there was, and some deltas on top of it. */
    ghost predicate Took(bytes: seq<Byte>, arrived: seq<Byte>, thoughts: seq<Byte>, calls: seq<CallState>, deltas: seq<Delta>)
      reads this, splitter, recovery
    {
      && Valid(Fed(bytes, deltas)) && InOrder(Fed(arrived, deltas))
      && ThoughtsOf(messages) == Thought(thoughts, deltas) && CallsOf(messages) == calls
    }

    method EmitNext(delta: Delta, ghost bytes: seq<Byte>, ghost arrived: seq<Byte>, ghost thoughts: seq<Byte>,
                    ghost calls: seq<CallState>, ghost past: seq<Delta>)
      requires Took(bytes, arrived, thoughts, calls, past)
      modifies this
      modifies recovery`text, recovery`overflow, recovery`disabled, recovery`given, recovery`passed, recovery`lost
      ensures Took(bytes, arrived, thoughts, calls, past + [delta])
      ensures recovery.resolved ==> recovery.lost == old(recovery.lost)
    {
      FedNext(bytes, thoughts, past, delta);
      FedNext(arrived, thoughts, past, delta);
      EmitOne(delta, Fed(bytes, past), Fed(arrived, past));
    }

    method EmitEach(deltas: seq<Delta>, ghost bytes: seq<Byte>, ghost arrived: seq<Byte>, ghost thoughts: seq<Byte>,
                    ghost calls: seq<CallState>, ghost past: seq<Delta>)
      requires Took(bytes, arrived, thoughts, calls, past)
      modifies this
      modifies recovery`text, recovery`overflow, recovery`disabled, recovery`given, recovery`passed, recovery`lost
      ensures Took(bytes, arrived, thoughts, calls, past + deltas)
      ensures recovery.resolved ==> recovery.lost == old(recovery.lost)
      decreases |deltas|
    {
      if deltas == [] {
        assert past + deltas == past;
      } else {
        assert past + deltas == past + [deltas[0]] + deltas[1..];
        EmitNext(deltas[0], bytes, arrived, thoughts, calls, past);
        EmitEach(deltas[1..], bytes, arrived, thoughts, calls, past + [deltas[0]]);
      }
    }

    /** The callbacks of one `feed`. */
    method EmitAll(deltas: seq<Delta>, ghost bytes: seq<Byte>, ghost arrived: seq<Byte>)
      requires Valid(bytes) && InOrder(arrived)
      modifies this
      modifies recovery`text, recovery`overflow, recovery`disabled, recovery`given, recovery`passed, recovery`lost
      ensures Valid(bytes + BytesOf(deltas)) && InOrder(arrived + BytesOf(deltas))
      ensures ThoughtsOf(messages) == old(ThoughtsOf(messages)) + Thinking(BytesOf(deltas))
      ensures CallsOf(messages) == old(CallsOf(messages))
      ensures recovery.resolved ==> recovery.lost == old(recovery.lost)
    {
      FedIs(bytes, deltas);
      FedIs(arrived, deltas);
      ThoughtIs(ThoughtsOf(messages), deltas);
      assert [] + deltas == deltas;
      EmitEach(deltas, bytes, arrived, ThoughtsOf(messages), CallsOf(messages), []);
    }

    /** Where the events so far put it. */
    ghost predicate At(s: Summary, bytes: seq<Byte>)
      reads this, splitter, recovery, tools, tools.order
    {
      match s
      case Unresolved(content, arrived, thoughts, w) =>
        && Valid(bytes) && Decides(bytes, content) && InOrder(arrived) && Follows(w)
        && ThoughtsOf(messages) == thoughts && CallsOf(messages) == []
      case Resolved(content, arrived, thoughts, w, given, tally) =>
        && Valid(bytes) && Decides(bytes, content) && InOrder(arrived) && Settles(w, given, tally.calls)
        && ThoughtsOf(messages) == thoughts && CallsOf(messages) == tally.sent
    }

    ghost predicate Fresh()
      reads this, splitter, recovery, tools, tools.order
    {
      !splitter.thinking && splitter.pending == "" && At(NO_EVENTS, [])
    }

    /** `EmitToolCalls`. */
    method EmitToolCalls(states: seq<CallState>)
      modifies this`messages
      ensures messages == old(messages) + Deltas(states)
    {
      for i := 0 to |states|
        invariant messages == old(messages) + Deltas(states)[..i]
      {
        messages := messages + [ToolCallDelta(states[i])];
      }
    }

    method SendCalls(ghost arrived: seq<Byte>, ghost s: Summary, ghost given: string)
      requires Coherent(s) && InOrder(arrived)
      requires if s.Resolved? then Settles(s.watch, given, s.tally.calls) else Mends(s.watch, given)
      requires CallsOf(messages) == if s.Resolved? then s.tally.sent else []
      modifies this`messages, tools.Repr
      ensures InOrder(arrived) && Alike(messages, old(messages)) && recovery.Abs() == old(recovery.Abs())
      ensures Settles(s.watch, given, Sent(Made(), s, given).calls) && CallsOf(messages) == Sent(Made(), s, given).sent
      ensures old(messages) <= messages && forall k :: |old(messages)| <= k < |messages| ==> messages[k].ToolCallDelta?
    {
      var calls := tools.CompleteAll();
      CallsAppended(messages, calls);
      EmitToolCalls(calls);
    }

    /** `emitTools`: text that was held goes out first, then the calls; `ok` is false when a broken call
        cannot be repaired. */
    method EmitTools(ghost bytes: seq<Byte>, ghost arrived: seq<Byte>, ghost s: Summary, ghost given: string)
      returns (ok: bool)
      requires Coherent(s) && Valid(bytes) && InOrder(arrived) && recovery.resolved == s.Resolved?
      requires if s.Resolved? then Settles(s.watch, given, s.tally.calls) && CallsOf(messages) == s.tally.sent
               else Follows(s.watch) && recovery.given == given && CallsOf(messages) == []
      modifies this, recovery, tools.Repr
      ensures ThoughtsOf(messages) == old(ThoughtsOf(messages)) && InOrder(arrived) && old(messages) <= messages
      ensures ok ==>
        var tally := Sent(Made(), s, given);
        Valid(bytes) && Settles(s.watch, given, tally.calls) && CallsOf(messages) == tally.sent
      ensures !ok ==> s.Unresolved? && Refusable(s.watch, given) && Progress(s.watch, given) && CallsOf(messages) == []
      ensures CallsLast(messages, |old(messages)|)
    {
      ok := EmitHeld(arrived, s, given);
      if ok {
        SendCalls(arrived, s, given);
      }
    }

    /** `resolve`, for the first time, says what the verdict says. */
    method ResolveHeld(ghost w: Watch, ghost given: string) returns (r: Resolution)
      requires recovery.Valid() && TextOf(messages) == recovery.passed && Follows(w) && recovery.given == given
      modifies recovery, recovery.call
      ensures recovery.Valid() && recovery.resolved && recovery.call == old(recovery.call) && recovery.given == old(recovery.given)
      ensures recovery.passed == old(recovery.passed) + if r.Pass? then r.text else ""
      ensures r.Pass? ==> r.text == old(recovery.text)
      ensures tools.Valid() && IsFallback(parse)
      ensures var verdict := Judge(parse, recovery.prolog, w, given);
        && (verdict.Refuses? <==> !r.Pass? && !r.Repaired?) && (verdict.Refuses? ==> Progress(w, given))
        && (!verdict.Refuses? && !Overran(recovery.prolog, w, given) ==> recovery.lost == Withheld(verdict, given))
        && (verdict.Repairs? ==> recovery.call != null && w.call.Some? && recovery.call == tools.order[w.call.value])
        && (recovery.call != null ==>
              recovery.call.State()
              == old(recovery.call.State()).(arguments := if verdict.Repairs? then verdict.arguments else old(recovery.call.arguments)))
    {
      ghost var b := recovery.Abs();
      HeldOrPassed(recovery.prolog, b, w.call.Some?);
      assert w.call.Some? ==> recovery.call.State() == w.calls.order[w.call.value];
      r := recovery.Resolve();
      ResolutionIsJudged(parse, recovery.prolog, b, w, r);
    }

    /** The accumulator keeps its calls, but for the one that was repaired. */
    method ResolveAndMend(ghost w: Watch, ghost given: string) returns (r: Resolution)
      requires recovery.Valid() && TextOf(messages) == recovery.passed && Follows(w) && recovery.given == given
      modifies recovery, recovery.call
      ensures recovery.Valid() && recovery.resolved
      ensures recovery.call == old(recovery.call) && recovery.given == old(recovery.given)
      ensures recovery.passed == old(recovery.passed) + if r.Pass? then r.text else ""
      ensures r.Pass? ==> r.text == old(recovery.text)
      ensures if r.Pass? || r.Repaired? then Mends(w, given) else Refusable(w, given) && Progress(w, given)
    {
      ghost var calls := tools.Abs();
      r := ResolveHeld(w, given);
      ghost var verdict := Judge(parse, recovery.prolog, w, given);
      forall i | 0 <= i < |tools.order|
        ensures tools.order[i].State() == Mended(verdict, w).order[i]
      {
        assert calls.order[i] == old(tools.order[i].State());
      }
    }

    method ResolveAgain(ghost s: Summary, ghost given: string) returns (r: Resolution)
      requires Coherent(s) && s.Resolved? && recovery.Valid() && Settles(s.watch, given, s.tally.calls)
      modifies recovery, recovery.call
      ensures r == Pass("") && recovery.Valid() && Settles(s.watch, given, s.tally.calls)
      ensures recovery.passed == old(recovery.passed) && recovery.given == old(recovery.given)
    {
      r := recovery.Resolve();
    }

    /** Passes on the text that `resolve` answers, if any; `b` is the buffer before. */
    method EmitResolved(r: Resolution, ghost b: Buffer, ghost arrived: seq<Byte>)
      requires recovery.Valid() && recovery.resolved && Sound(recovery.prolog, b, recovery.call != null)
      requires Arrives(arrived) && Awaited(b, arrived, wait) && recovery.given == b.given
      requires r.Pass? ==> r.text == if b.resolved then "" else b.text
      modifies this
      ensures TextOf(messages) == old(TextOf(messages)) + (if r.Pass? then r.text else "") && InOrder(arrived)
      ensures EmbeddedOf(messages) == old(EmbeddedOf(messages)) && ThoughtsOf(messages) == old(ThoughtsOf(messages))
      ensures CallsOf(messages) == old(CallsOf(messages))
      ensures messages == old(messages) || (|messages| == |old(messages)| + 1 && old(messages) <= messages)
    {
      ghost var received := Received(messages);
      ResolvingKeepsOrder(recovery.prolog, b, recovery.call != null, received, arrived, wait, r.Pass?);
      if r.Pass? {
        EmitTextDelta(r.text);
      }
      assert received + [] == received;
      if wait.Waiting? {
        wait := if r.Pass? then Came(|arrived|) else Dropped(|arrived|);
      }
    }

    method EmitHeld(ghost arrived: seq<Byte>, ghost s: Summary, ghost given: string) returns (ok: bool)
      requires Coherent(s) && recovery.Valid() && TextOf(messages) == recovery.passed && recovery.resolved == s.Resolved?
      requires InOrder(arrived)
      requires if s.Resolved? then Settles(s.watch, given, s.tally.calls) else Follows(s.watch) && recovery.given == given
      modifies this, recovery, recovery.call
      ensures recovery.Valid() && TextOf(messages) == recovery.passed && EmbeddedOf(messages) == old(EmbeddedOf(messages))
      ensures ThoughtsOf(messages) == old(ThoughtsOf(messages)) && CallsOf(messages) == old(CallsOf(messages))
      ensures messages == old(messages) || (|messages| == |old(messages)| + 1 && old(messages) <= messages)
      ensures recovery.given == old(recovery.given) && InOrder(arrived)
      ensures !ok ==> s.Unresolved? && Refusable(s.watch, given) && Progress(s.watch, given)
      ensures ok ==> if s.Resolved? then Settles(s.watch, given, s.tally.calls) else Mends(s.watch, given)
    {
      ghost var b := recovery.Abs();
      var r;
      if recovery.resolved {
        r := ResolveAgain(s, given);
      } else {
        r := ResolveAndMend(s.watch, given);
      }
      ok := r.Pass? || r.Repaired?;
      EmitResolved(r, b, arrived);
    }

    /** The calls are resolved, for the first time, and wait to be sent. */
    ghost predicate Mends(w: Watch, given: string)
      requires Proper(w)
      reads recovery, tools, tools.order
    {
      var verdict := Judge(parse, recovery.prolog, w, given);
      && Linked(w) && recovery.resolved && !verdict.Refuses? && tools.Abs() == Mended(verdict, w)
      && (!Overran(recovery.prolog, w, given) ==> recovery.lost == Withheld(verdict, given))
      && (verdict.Repairs? ==>
            recovery.call != null && recovery.call.arguments == verdict.arguments && recovery.call.name != "")
    }

    ghost predicate Decides(bytes: seq<Byte>, content: string)
      requires splitter.tags.Ok()
      reads splitter
    {
      Split(bytes, splitter.thinking, splitter.pending) == Decided(splitter.tags, false, content)
    }

    method TellApart(text: string, ghost content: string, ghost bytes: seq<Byte>) returns (deltas: seq<Delta>)
      requires splitter.tags.Ok() && Decides(bytes, content)
      modifies splitter
      ensures Decides(bytes + BytesOf(deltas), content + text) && BytesOf(deltas) == Anew(splitter.tags, content, text)
    {
      Cut(splitter.tags, false, content, text);
      deltas := splitter.Feed(text, false);
    }

    method FeedContent(text: string, ghost content: string, ghost bytes: seq<Byte>, ghost arrived: seq<Byte>)
      returns (ghost after: seq<Byte>)
      requires Valid(bytes) && Decides(bytes, content) && InOrder(arrived)
      modifies this, splitter
      modifies recovery`text, recovery`overflow, recovery`disabled, recovery`given, recovery`passed, recovery`lost
      ensures Valid(after) && Decides(after, content + text) && InOrder(arrived + Anew(splitter.tags, content, text))
      ensures recovery.resolved ==> recovery.lost == old(recovery.lost)
      ensures ThoughtsOf(messages) == old(ThoughtsOf(messages)) + ThoughtsBy(splitter.tags, content, Content(text))
      ensures CallsOf(messages) == old(CallsOf(messages))
    {
      var deltas := TellApart(text, content, bytes);
      after := bytes + BytesOf(deltas);
      EmitAll(deltas, bytes, arrived);
    }

    /** One content delta. */
    method OnContent(text: string, ghost s: Summary, ghost bytes: seq<Byte>) returns (ghost after: seq<Byte>)
      requires Coherent(s) && At(s, bytes)
      modifies this, splitter
      modifies recovery`text, recovery`overflow, recovery`disabled, recovery`given, recovery`passed, recovery`lost
      ensures At(Continued(Made(), s, Content(text)), after)
    {
      if text == "" {
        assert s.content + "" == s.content && s.arrived + [] == s.arrived && s.thoughts + [] == s.thoughts;
        NothingAnew(splitter.tags, s.content);
        return bytes;
      }
      after := FeedContent(text, s.content, bytes, s.arrived);
      if s.Resolved? { assert Settles(s.watch, s.given, s.tally.calls); } else { assert Follows(s.watch); }
    }

    method OnReasoning(text: string, ghost s: Summary, ghost bytes: seq<Byte>)
      requires Coherent(s) && At(s, bytes)
      modifies this
      ensures At(Continued(Made(), s, Reasoning(text)), bytes)
    {
      assert s.content + "" == s.content;
      EmitReasoning(text, false, s.arrived);
      if s.Resolved? { assert Settles(s.watch, s.given, s.tally.calls); } else { assert Follows(s.watch); }
    }

    /** What holds of the calls before a fragment, and what after it. */
    ghost predicate Holds(s: Summary, w: Watch, calls: Calls)
      reads recovery, tools, tools.order
    {
      recovery.resolved == s.Resolved? && if s.Resolved? then Settles(s.watch, s.given, calls) else Follows(w)
    }

    method AddFragment(e: Event, ghost s: Summary) returns (call: ToolCall)
      requires e.Tool? && Coherent(s) && Holds(s, s.watch, TallyOf(s).calls)
      modifies tools, tools.Repr
      ensures Holds(s, Touched(s.watch, e), Added(TallyOf(s).calls, e.index, e.id, e.name, e.arguments))
      ensures tools.Valid() && e.index in tools.at && call == tools.order[tools.at[e.index]]
      ensures fresh(tools.Repr - old(tools.Repr))
    {
      call := tools.Add(e.index, e.id, e.name, e.arguments);
    }

    method ObserveCall(call: ToolCall, ghost s: Summary, ghost w: Watch, ghost calls: Calls, ghost k: nat)
      requires recovery.Valid() && toolsEnabled && k < |tools.order| && call == tools.order[k] && Holds(s, w, calls)
      modifies recovery`call, recovery`ambiguous
      ensures recovery.Valid()
      ensures s.Resolved? ==> Holds(s, w, calls)
      ensures s.Unresolved? ==> Proper(w) && k < |w.calls.order| && Holds(s, Noticed(w, k), calls)
    {
      recovery.Observe(call);
    }

    method TakeFragment(e: Event, ghost s: Summary, ghost bytes: seq<Byte>)
      requires e.Tool? && Coherent(s) && Valid(bytes) && InOrder(s.arrived) && Holds(s, s.watch, TallyOf(s).calls)
      modifies recovery`call, recovery`ambiguous, tools, tools.Repr
      ensures Valid(bytes) && InOrder(s.arrived)
      ensures Holds(s, Stepped(s.watch, e, toolsEnabled), Added(TallyOf(s).calls, e.index, e.id, e.name, e.arguments))
      ensures fresh(tools.Repr - old(tools.Repr))
    {
      var call := AddFragment(e, s);
      if toolsEnabled {
        ghost var calls := Added(TallyOf(s).calls, e.index, e.id, e.name, e.arguments);
        ObserveCall(call, s, Touched(s.watch, e), calls, tools.at[e.index]);
      }
    }

    /** One fragment of a native call. */
    method OnTool(e: Event, ghost s: Summary, ghost bytes: seq<Byte>)
      requires e.Tool? && Coherent(s) && At(s, bytes)
      modifies recovery`call, recovery`ambiguous, tools, tools.Repr
      ensures At(Continued(Made(), s, e), bytes)
      ensures fresh(tools.Repr - old(tools.Repr))
    {
      assert s.content + "" == s.content && s.arrived + [] == s.arrived && s.thoughts + [] == s.thoughts;
      TakeFragment(e, s, bytes);
    }

    method OnFinish(ghost s: Summary, ghost bytes: seq<Byte>) returns (ok: bool)
      requires Coherent(s) && At(s, bytes)
      modifies this, recovery, tools.Repr
      ensures ok ==> At(Continued(Made(), s, Finish), bytes)
      ensures !ok ==> Stops(s)
    {
      assert s.content + "" == s.content && s.arrived + [] == s.arrived && s.thoughts + [] == s.thoughts;
      ok := EmitTools(bytes, s.arrived, s, if s.Resolved? then s.given else TextBefore(splitter.tags, s.content));
    }

    /** One event of the stream; `ok` is false when a broken native call cannot be repaired. */
    method OnEvent(e: Event, ghost s: Summary, ghost next: Summary, ghost bytes: seq<Byte>)
      returns (ok: bool, ghost after: seq<Byte>)
      requires Coherent(s) && At(s, bytes) && next == Continued(Made(), s, e)
      modifies this, splitter, recovery, tools, tools.Repr
      ensures ok ==> At(next, after)
      ensures !ok ==> e.Finish? && Stops(s)
      ensures fresh(tools.Repr - old(tools.Repr))
    {
      ok, after := true, bytes;
      match e {
        case Reasoning(text) => OnReasoning(text, s, bytes);
        case Tool(_, _, _, _) => OnTool(e, s, bytes);
        case Content(text) => after := OnContent(text, s, bytes);
        case Finish => ok := OnFinish(s, bytes);
      }
    }

    ghost predicate Refusable(w: Watch, given: string)
      requires Proper(w)
    {
      Judge(parse, recovery.prolog, w, given).Refuses?
    }

    /** It ends at the calls, with this text and this reasoning told apart by then. */
    ghost predicate GivesUp(s: Summary, given: string, arrived: seq<Byte>, thoughts: seq<Byte>)
      requires Proper(s.watch)
      reads this, recovery
    {
      && Refusable(s.watch, given) && Progress(s.watch, given) && Arrives(arrived)
      && ThoughtsOf(messages) == thoughts && CallsOf(messages) == []
    }

    /** It ends at a finish reason. */
    ghost predicate Stops(s: Summary)
      requires Coherent(s) && splitter.tags.Ok()
      reads this, recovery
    {
      match s
      case Unresolved(content, arrived, thoughts, w) => GivesUp(s, TextBefore(splitter.tags, content), arrived, thoughts)
      case Resolved(_, _, _, _, _, _) => false
    }

    method FinalFlush(ghost content: string, ghost bytes: seq<Byte>, ghost arrived: seq<Byte>)
      requires Valid(bytes) && Decides(bytes, content) && InOrder(arrived)
      modifies this, splitter
      modifies recovery`text, recovery`overflow, recovery`disabled, recovery`given, recovery`passed, recovery`lost
      ensures Valid(Finished(splitter.tags, false, content))
      ensures var r := Decided(splitter.tags, false, content); InOrder(arrived + Label(r.thinking, r.pending))
      ensures recovery.resolved ==> recovery.lost == old(recovery.lost)
      ensures ThoughtsOf(messages) == old(ThoughtsOf(messages)) + Label(true, Flushed(splitter.tags, content))
      ensures CallsOf(messages) == old(CallsOf(messages))
    {
      ghost var r := Decided(splitter.tags, false, content);
      ChosenLabel(true, r.thinking, r.pending);
      FeedOfNothing(splitter.tags, content);
      var deltas := splitter.Feed("", true);
      EmitAll(deltas, bytes, arrived);
    }

    /** The final flush and the final `emitTools`. */
    method End(ghost s: Summary, ghost bytes: seq<Byte>) returns (ok: bool)
      requires Coherent(s) && At(s, bytes)
      modifies this, splitter, recovery, tools.Repr
      ensures var given := FinalGiven(splitter.tags, s);
        var tally := Sent(Made(), s, given);
        var r := Decided(splitter.tags, false, s.content);
        var arrived, thoughts := s.arrived + Label(r.thinking, r.pending), s.thoughts + Label(true, Flushed(splitter.tags, s.content));
        if ok then
          && Valid(Finished(splitter.tags, false, s.content)) && Settles(s.watch, given, tally.calls)
          && Arrives(arrived) && ThoughtsOf(messages) == thoughts && CallsOf(messages) == tally.sent
        else s.Unresolved? && GivesUp(s, given, arrived, thoughts)
    {
      FinalFlush(s.content, bytes, s.arrived);
      ghost var r := Decided(splitter.tags, false, s.content);
      ghost var arrived := s.arrived + Label(r.thinking, r.pending);
      ok := EmitTools(Finished(splitter.tags, false, s.content), arrived, s, FinalGiven(splitter.tags, s));
    }

    /** The events one after the other; `last` is the one at which it gives up. */
    method Read(events: seq<Event>, ghost trace: seq<Summary>)
      returns (ok: bool, sawFinish: bool, ghost bytes: seq<Byte>, ghost last: nat)
      requires At(NO_EVENTS, []) && IsTrace(Made(), events, trace)
      modifies this, splitter, recovery, tools, tools.Repr
      ensures ok ==> At(trace[|events|], bytes) && sawFinish == trace[|events|].Resolved?
      ensures !ok ==> last < |events| && events[last].Finish? && Stops(trace[last])
      ensures fresh(tools.Repr - old(tools.Repr))
    {
      ok, sawFinish, bytes, last := true, false, [], 0;
      var i := 0;
      while i < |events|
        invariant 0 <= i <= |events| && At(trace[i], bytes) && sawFinish == trace[i].Resolved?
        invariant fresh(tools.Repr - old(tools.Repr))
      {
        ghost var s, next := trace[i], trace[i + 1];
        ok, bytes := OnEvent(events[i], s, next, bytes);
        if !ok {
          return ok, sawFinish, bytes, i;
        }
        sawFinish := sawFinish || events[i].Finish?;
        i := i + 1;
      }
    }

    /** How a stream ends, if `bytes` is all its content and the calls were resolved on `given`: of the
        text only a beginning can be missing, and that is known but for an overrun. */
    ghost predicate Answered(outcome: Outcome, w: Watch, given: string, bytes: seq<Byte>)
      requires Proper(w)
      reads this, recovery, recovery.call
    {
      var verdict := Judge(parse, recovery.prolog, w, given);
      && (outcome == Refused <==>
            && w.call.Some? && Trim(w.calls.order[w.call.value].arguments) == "{\"chars\":"
            && given != "" && (given <= recovery.prolog || recovery.prolog <= given)
            && (w.ambiguous || |given| > 16384 || ControlTool.Parsed(given).None?))
      && (outcome == Complete ==> (
            && EmbeddedOf(messages) == Chosen(true, bytes)
            && recovery.lost + TextOf(messages) == Chosen(false, bytes)
            && (!Overran(recovery.prolog, w, given) ==> recovery.lost == Withheld(verdict, given))
            && (verdict.Repairs? ==> recovery.call != null && recovery.call.arguments == verdict.arguments)))
    }

    lemma RefusableIsAnswered(w: Watch, given: string, bytes: seq<Byte>)
      requires Proper(w) && IsFallback(parse) && Refusable(w, given)
      ensures Answered(Refused, w, given, bytes)
    {
    }

    lemma SettledIsAnswered(w: Watch, given: string, calls: Calls, bytes: seq<Byte>)
      requires Valid(bytes) && Settles(w, given, calls)
      ensures Answered(Complete, w, given, bytes)
    {
    }

    /** Where a stream stands that is refused at a finish reason. */
    lemma RefusedIsAnswered(events: seq<Event>, trace: seq<Summary>, last: nat)
      requires splitter.tags.Ok() && IsTrace(Made(), events, trace) && trace[|events|] == SummaryOf(Made(), events)
      requires last < |events| && events[last].Finish? && Stops(trace[last])
      ensures var w, given := WatchAt(events, toolsEnabled), GivenAt(splitter.tags, events);
        Finish in events && Refusable(w, given) && Progress(w, given)
      ensures ThoughtsOf(messages) == ThoughtsUpTo(splitter.tags, events, Refused) && CallsOf(messages) == []
      ensures Arrives(ArrivedUpTo(splitter.tags, events, Refused))
    {
      var s := trace[last];
      ResolvedFor(Made(), events, trace, last);
      assert Refusable(s.watch, TextBefore(splitter.tags, s.content)) && Progress(s.watch, TextBefore(splitter.tags, s.content));
    }

    /** Where a stream stands that is cut off before any finish reason. */
    lemma IsCutOff(s: Summary, bytes: seq<Byte>)
      requires At(s, bytes) && s.Unresolved?
      ensures Progress(s.watch, TextBefore(splitter.tags, s.content))
      ensures ThoughtsOf(messages) == s.thoughts && CallsOf(messages) == [] && Arrives(s.arrived)
    {
      HeldOrPassed(recovery.prolog, recovery.Abs(), recovery.call != null);
    }

    /** The whole stream.  `done` tells that it ended with the `[DONE]` marker.

        The attempt is refused exactly if a broken call cannot be repaired, and else the client receives
        exactly the embedded reasoning of the content's segments and their text, less what repaired a
        call; all reasoning in order of arrival; text and reasoning in order, but that a beginning of
        the text may come late, in one piece; and each call once.  All this however the content was cut
        into deltas, and wherever finish reasons, reasoning and calls stood between them.  A stream that
        is cut off or refused leaves the same of what came before. */
    method Consume(events: seq<Event>, done: bool) returns (outcome: Outcome)
      requires Fresh()
      modifies this, splitter, recovery, tools, tools.Repr
      ensures outcome == Truncated <==> !done && Finish !in events
      ensures outcome != Truncated ==>
        Answered(outcome, WatchAt(events, toolsEnabled), GivenAt(splitter.tags, events),
                 Labels(false, Segments(splitter.tags, false, ContentOf(events))))
      ensures ThoughtsOf(messages) == ThoughtsUpTo(splitter.tags, events, outcome)
      ensures Arrives(ArrivedUpTo(splitter.tags, events, outcome))
      ensures CallsOf(messages) == if outcome == Complete then Finally(Made(), events).sent else []
      ensures outcome != Complete ==>
        Progress(WatchAt(events, toolsEnabled),
                 if outcome.Truncated? then TextBefore(splitter.tags, ContentOf(events)) else GivenAt(splitter.tags, events))
    {
      ghost var s := SummaryOf(Made(), events);
      ghost var given := GivenAt(splitter.tags, events);
      SummaryIs(Made(), events);
      FinishedIsSegments(splitter.tags, false, s.content);
      ghost var trace := TraceOf(Made(), events);
      var ok, sawFinish;
      ghost var bytes, last;
      ok, sawFinish, bytes, last := Read(events, trace);
      if !ok {
        RefusedIsAnswered(events, trace, last);
        RefusableIsAnswered(s.watch, given, Finished(splitter.tags, false, s.content));
        return Refused;
      }
      if !done && !sawFinish {
        IsCutOff(s, bytes);
        return Truncated;
      }
      ok := Conclude(events, s, bytes);
      return if ok then Complete else Refused;
    }

    method Conclude(ghost events: seq<Event>, ghost s: Summary, ghost bytes: seq<Byte>) returns (ok: bool)
      requires splitter.tags.Ok() && IsFallback(parse) && s == SummaryOf(Made(), events) && At(s, bytes)
      modifies this, splitter, recovery, tools.Repr
      ensures var outcome := if ok then Complete else Refused;
        && Answered(outcome, WatchAt(events, toolsEnabled), GivenAt(splitter.tags, events),
                    Finished(splitter.tags, false, ContentOf(events)))
        && ThoughtsOf(messages) == ThoughtsUpTo(splitter.tags, events, outcome)
        && Arrives(ArrivedUpTo(splitter.tags, events, outcome))
        && CallsOf(messages) == (if ok then Finally(Made(), events).sent else [])
        && (!ok ==> Progress(WatchAt(events, toolsEnabled), GivenAt(splitter.tags, events)))
    {
      ghost var given := GivenAt(splitter.tags, events);
      SummaryIs(Made(), events);
      ok := End(s, bytes);
      if ok {
        SettledIsAnswered(s.watch, given, Sent(Made(), s, given).calls, Finished(splitter.tags, false, s.content));
      } else {
        RefusableIsAnswered(s.watch, given, Finished(splitter.tags, false, s.content));
      }
    }
  }

  lemma FeedOfNothing(tags: Tags, s: string)
    requires tags.Ok()
    ensures var r := Decided(tags, false, s);
      Finished(tags, r.thinking, r.pending + "") == Label(r.thinking, r.pending)
  {
    var r := Decided(tags, false, s);
    assert r.pending + "" == r.pending;
    DecidedPending(tags, false, s);
  }

  lemma NothingAnew(tags: Tags, content: string)
    requires tags.Ok()
    ensures Anew(tags, content, "") == [] && ThoughtsBy(tags, content, Content("")) == []
  {
    var r := Decided(tags, false, content);
    assert r.pending + "" == r.pending;
    DecidedPending(tags, false, content);
  }

  /** What is held is decided by nothing that came before it. */
  lemma {:induction false} DecidedPending(tags: Tags, thinking: bool, s: string)
    requires tags.Ok()
    ensures var r := Decided(tags, thinking, s);
      Decided(tags, r.thinking, r.pending) == Split([], r.thinking, r.pending)
    decreases |s|
  {
    var tag := Tag(tags, thinking);
    if Starts(s, tag) {
    } else if Has(s, tag) {
      DecidedPending(tags, !thinking, s[|tag|..]);
    } else {
      DecidedPending(tags, thinking, s[1..]);
    }
  }
}
