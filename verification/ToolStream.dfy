/** internal/util/toolstream.go: tool calls put together from deltas.  One index may be used by several
    calls, so a call is the object it is kept in, and `order` lists those in order of their start. */
module ToolStream {
  import opened Text

  datatype CallState = CallState(id: string, name: string, arguments: string, emitted: bool)

  /** The calls in order, and the place of the one that continues at an index. */
  datatype Calls = Calls(order: seq<CallState>, at: map<int, nat>)

  predicate Fits(c: Calls) { forall i :: i in c.at ==> c.at[i] < |c.order| }

  const NO_CALLS := Calls([], map[])

  /** A call that was delivered takes nothing more, and one with an id nothing with another id. */
  predicate Closed(call: CallState, id: string) { call.emitted || (id != "" && call.id != "" && call.id != id) }

  predicate Continues(c: Calls, index: int, id: string)
    requires Fits(c)
  {
    index in c.at && !Closed(c.order[c.at[index]], Trim(id))
  }

  function Extended(call: CallState, id: string, name: string, arguments: string): CallState {
    CallState(if Trim(id) != "" then Trim(id) else call.id, if Trim(name) != "" then Trim(name) else call.name,
              call.arguments + arguments, call.emitted)
  }

  function Added(c: Calls, index: int, id: string, name: string, arguments: string): (r: Calls)
    requires Fits(c)
    ensures Fits(r) && index in r.at
  {
    if Continues(c, index, id) then
      var k := c.at[index];
      c.(order := c.order[k := Extended(c.order[k], id, name, arguments)])
    else
      Calls(c.order + [Extended(CallState("", "", "", false), id, name, arguments)], c.at[index := |c.order|])
  }

  function Marked(call: CallState): CallState { if call.name == "" then call else call.(emitted := true) }

  function MarkedAll(order: seq<CallState>): seq<CallState> {
    seq(|order|, i requires 0 <= i < |order| => Marked(order[i]))
  }

  function Completed(c: Calls): Calls { c.(order := MarkedAll(c.order)) }

  /** The calls that are due for delivery, as they are delivered. */
  function Due(order: seq<CallState>): seq<CallState> {
    if order == [] then []
    else
      var due, last := Due(order[..|order| - 1]), order[|order| - 1];
      if last.name != "" && !last.emitted then due + [last.(emitted := true)] else due
  }

  lemma DueNext(order: seq<CallState>, i: nat)
    requires i < |order|
    ensures Due(order[..i + 1])
         == if order[i].name != "" && !order[i].emitted then Due(order[..i]) + [order[i].(emitted := true)] else Due(order[..i])
  {
    assert order[..i + 1][..i] == order[..i];
  }

  // ----- whole runs -----

  /** What happens to an accumulator: a delta, or a delivery. */
  datatype Step = Fragment(index: int, id: string, name: string, arguments: string) | Delivery

  function After(c: Calls, step: Step): (r: Calls)
    requires Fits(c)
    ensures Fits(r)
  {
    match step
    case Fragment(index, id, name, arguments) => Added(c, index, id, name, arguments)
    case Delivery => Completed(c)
  }

  function Run(steps: seq<Step>): (c: Calls)
    ensures Fits(c)
  {
    if steps == [] then NO_CALLS else After(Run(steps[..|steps| - 1]), steps[|steps| - 1])
  }

  /** All that was delivered, in order of delivery. */
  function DeliveredBy(steps: seq<Step>): seq<CallState> {
    if steps == [] then []
    else
      var past := steps[..|steps| - 1];
      DeliveredBy(past) + if steps[|steps| - 1].Delivery? then Due(Run(past).order) else []
  }

  /** The last of these steps is a delta of call `k`. */
  predicate GoesTo(steps: seq<Step>, k: nat)
    requires steps != []
  {
    var last := steps[|steps| - 1];
    last.Fragment? && After(Run(steps[..|steps| - 1]), last).at[last.index] == k
  }

  /** The fragments of call `k`, one behind the other. */
  function FragmentsOf(steps: seq<Step>, k: nat): string {
    if steps == [] then ""
    else FragmentsOf(steps[..|steps| - 1], k) + if GoesTo(steps, k) then steps[|steps| - 1].arguments else ""
  }

  /** A call's arguments are its fragments in order of arrival. */
  lemma {:induction false} ArgumentsAreFragments(steps: seq<Step>, k: nat)
    ensures k < |Run(steps).order| ==> Run(steps).order[k].arguments == FragmentsOf(steps, k)
    ensures k >= |Run(steps).order| ==> FragmentsOf(steps, k) == ""
  {
    if steps != [] {
      ArgumentsAreFragments(steps[..|steps| - 1], k);
    }
  }

  function Emitted(order: seq<CallState>): multiset<CallState> {
    if order == [] then multiset{}
    else
      var emitted, last := Emitted(order[..|order| - 1]), order[|order| - 1];
      if last.emitted then emitted + multiset{last} else emitted
  }

  lemma {:induction false} EmittedUpdate(order: seq<CallState>, k: nat, call: CallState)
    requires k < |order| && !order[k].emitted && !call.emitted
    ensures Emitted(order[k := call]) == Emitted(order)
  {
    var n := |order| - 1;
    if k < n {
      EmittedUpdate(order[..n], k, call);
      assert order[k := call][..n] == order[..n][k := call];
    } else {
      assert order[k := call][..n] == order[..n];
    }
  }

  lemma EmittedNext(order: seq<CallState>, call: CallState)
    ensures Emitted(order + [call]) == if call.emitted then Emitted(order) + multiset{call} else Emitted(order)
    ensures Due(order + [call])
         == if call.name != "" && !call.emitted then Due(order) + [call.(emitted := true)] else Due(order)
    ensures MarkedAll(order + [call]) == MarkedAll(order) + [Marked(call)]
  {
    assert (order + [call])[..|order|] == order;
  }

  lemma {:induction false} DeliveryMarksDue(order: seq<CallState>)
    ensures Emitted(MarkedAll(order)) == Emitted(order) + multiset(Due(order))
  {
    if order != [] {
      var past, last := order[..|order| - 1], order[|order| - 1];
      DeliveryMarksDue(past);
      assert order == past + [last];
      EmittedNext(past, last);
      EmittedNext(MarkedAll(past), Marked(last));
      if last.name != "" && !last.emitted {
        assert multiset(Due(past) + [Marked(last)]) == multiset(Due(past)) + multiset{Marked(last)};
      }
    }
  }

  lemma MarkedIsEmitted(order: seq<CallState>)
    ensures forall call :: call in MarkedAll(order) && call.name != "" ==> call.emitted
  {
  }

  lemma FragmentDeliversNothing(c: Calls, index: int, id: string, name: string, arguments: string)
    requires Fits(c)
    ensures Emitted(Added(c, index, id, name, arguments).order) == Emitted(c.order)
  {
    if Continues(c, index, id) {
      EmittedUpdate(c.order, c.at[index], Extended(c.order[c.at[index]], id, name, arguments));
    } else {
      EmittedNext(c.order, Extended(CallState("", "", "", false), id, name, arguments));
    }
  }

  lemma Delivered(steps: seq<Step>)
    requires steps != [] && steps[|steps| - 1].Delivery?
    ensures var c := Run(steps[..|steps| - 1]);
      && Run(steps).order == MarkedAll(c.order)
      && multiset(DeliveredBy(steps)) == multiset(DeliveredBy(steps[..|steps| - 1])) + multiset(Due(c.order))
  {
  }

  /** Each call is delivered once, and as it is from then on; after a delivery, every call with a name
      has been. */
  lemma {:induction false} EachIsDeliveredOnce(steps: seq<Step>)
    ensures multiset(DeliveredBy(steps)) == Emitted(Run(steps).order)
    ensures steps != [] && steps[|steps| - 1].Delivery? ==>
      forall call :: call in Run(steps).order && call.name != "" ==> call.emitted
  {
    if steps != [] {
      var past, last := steps[..|steps| - 1], steps[|steps| - 1];
      EachIsDeliveredOnce(past);
      match last {
        case Fragment(index, id, name, arguments) => FragmentDeliversNothing(Run(past), index, id, name, arguments);
        case Delivery =>
          DeliveryMarksDue(Run(past).order);
          MarkedIsEmitted(Run(past).order);
          Delivered(steps);
      }
    }
  }

  /** A delta changes one call, and never one that was delivered: what the client was given stays what
      it is, whatever ids and indexes the upstream uses afterwards. */
  lemma DeliveredStays(c: Calls, index: int, id: string, name: string, arguments: string, k: nat)
    requires Fits(c) && k < |c.order|
    ensures var r := Added(c, index, id, name, arguments);
      && |c.order| <= |r.order|
      && (r.at[index] != k ==> r.order[k] == c.order[k])
      && (c.order[k].emitted ==> r.at[index] != k)
  {
  }

  class ToolCall {
    var id: string
    var name: string
    var arguments: string
    var emitted: bool

    constructor ()
      ensures State() == CallState("", "", "", false)
    {
      id, name, arguments, emitted := "", "", "", false;
    }

    function State(): CallState
      reads this
    {
      CallState(id, name, arguments, emitted)
    }

    method Extend(id: string, name: string, arguments: string)
      modifies this
      ensures State() == Extended(old(State()), id, name, arguments)
    {
      var trimmed := Trim(id);
      if trimmed != "" {
        this.id := trimmed;
      }
      if Trim(name) != "" {
        this.name := Trim(name);
      }
      this.arguments := this.arguments + arguments;
    }

    method Complete() returns (taken: bool)
      modifies this`emitted
      ensures State() == Marked(old(State())) && taken == old(name != "" && !emitted)
    {
      taken := !emitted && name != "";
      if taken {
        emitted := true;
      }
    }
  }

  class ToolCallAccumulator {
    var order: seq<ToolCall>
    var calls: map<int, ToolCall>
    ghost var at: map<int, nat>
    ghost var Repr: set<ToolCall>

    ghost predicate Valid()
      reads this
    {
      && (forall i, j :: 0 <= i < j < |order| ==> order[i] != order[j])
      && (forall c :: c in order ==> c in Repr)
      && at.Keys == calls.Keys
      && (forall i :: i in calls ==> at[i] < |order| && order[at[i]] == calls[i])
    }

    ghost function Abs(): Calls
      reads this, order
    {
      Calls(seq(|order|, i requires 0 <= i < |order| reads this, order => order[i].State()), at)
    }

    constructor ()
      ensures Valid() && order == [] && Repr == {} && Abs() == NO_CALLS
    {
      order, calls, at, Repr := [], map[], map[], {};
    }

    method Add(index: int, id: string, name: string, arguments: string) returns (state: ToolCall)
      requires Valid()
      modifies this, Repr
      ensures Valid() && Abs() == Added(old(Abs()), index, id, name, arguments) && state == order[at[index]]
      ensures old(order) <= order && fresh(Repr - old(Repr))
      ensures forall c :: c in old(order) && c != state ==> c.State() == old(c.State())
      ensures
        var continues := index in old(calls) && !old(calls[index].emitted) &&
                         (Trim(id) == "" || old(calls[index].id) == "" || old(calls[index].id) == Trim(id));
        && (if continues then order == old(order) && state == old(calls)[index] else order == old(order) + [state] && fresh(state))
        && state.arguments == (if continues then old(calls[index].arguments) else "") + arguments
        && state.id == (if Trim(id) != "" then Trim(id) else if continues then old(calls[index].id) else "")
        && state.name == (if Trim(name) != "" then Trim(name) else if continues then old(calls[index].name) else "")
        && !state.emitted
    {
      if index in calls && !Closed(calls[index].State(), Trim(id)) {
        state := calls[index];
      } else {
        state := Start(index);
      }
      ghost var begun, k := Abs(), at[index];
      state.Extend(id, name, arguments);
      assert Abs() == begun.(order := begun.order[k := Extended(begun.order[k], id, name, arguments)]);
    }

    method Start(index: int) returns (state: ToolCall)
      requires Valid()
      modifies this
      ensures Valid() && Abs() == Calls(old(Abs().order) + [CallState("", "", "", false)], old(at)[index := |old(order)|])
      ensures order == old(order) + [state] && fresh(state) && Repr == old(Repr) + {state}
    {
      state := new ToolCall();
      calls, at := calls[index := state], at[index := |order|];
      order, Repr := order + [state], Repr + {state};
    }

    /** Hands out the calls with a name that were not handed out before, and marks them. */
    method CompleteAll() returns (out: seq<CallState>)
      requires Valid()
      modifies Repr
      ensures Valid() && Abs() == Completed(old(Abs())) && out == Due(old(Abs().order))
      ensures forall k :: 0 <= k < |order| ==> order[k].State() == Marked(old(order[k].State()))
    {
      out := [];
      ghost var before := Abs().order;
      for i := 0 to |order|
        invariant Valid() && out == Due(before[..i])
        invariant forall k :: 0 <= k < i ==> order[k].State() == Marked(before[k])
        invariant forall k :: i <= k < |order| ==> order[k].State() == before[k]
      {
        DueNext(before, i);
        var call := order[i];
        var taken := call.Complete();
        if taken {
          out := out + [call.State()];
        }
      }
      assert Abs().order == MarkedAll(before) && before[..|order|] == before;
    }
  }
}
