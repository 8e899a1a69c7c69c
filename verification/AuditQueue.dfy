/** internal/audit/audit.go `RedisLogger`: a bounded queue between many callers and one writer.

    `Log` works under a lock, but the channel it sends on is emptied without it.  A step below is
    what no other goroutine can see the middle of; a run is any interleaving of steps. */
module AuditQueue {
  import opened Text

  const CHANNEL_CAPACITY: nat := 4096
  const MAX_BATCH: nat := 128
  const MAX_EVENT_BYTES: nat := 32 * 1024
  const MAX_QUEUED_BYTES: nat := 8 * 1024 * 1024

  datatype Item = Item(id: int, size: nat)

  /** Where the goroutine that holds the lock is; the writer and `Close` hold it for one step only. */
  datatype Lock = Free | Entered(item: Item, marshalFails: bool) | Checked(item: Item) | Sent(item: Item)

  datatype Writer = Waiting | Collecting | Releasing | Writing | Done

  datatype State = State(
    queue: seq<Item>, batch: seq<Item>, writer: Writer, lock: Lock, closed: bool,
    queuedBytes: int, written: nat, dropped: nat, writeFailed: nat,
    calls: nat, accepted: seq<Item>, settled: seq<Item>)

  datatype Step =
    | Enter(item: Item, marshalFails: bool) | Check | Send | Account
    | Receive | StopCollecting | Release | Settle(failures: nat) | Exit | Close

  /** A logger that has just been made. */
  predicate Fresh(s: State) {
    && s.queue == s.batch == s.accepted == s.settled == [] && s.writer.Waiting? && s.lock.Free? && !s.closed
    && s.queuedBytes == 0 && s.written == s.dropped == s.writeFailed == s.calls == 0
  }

  function Bytes(items: seq<Item>): nat {
    if items == [] then 0 else Bytes(items[..|items| - 1]) + items[|items| - 1].size
  }

  /** The condition under which `Log` drops an event before it tries the channel. */
  predicate Refused(s: State, item: Item, marshalFails: bool) {
    s.closed || marshalFails || item.size > MAX_EVENT_BYTES || s.queuedBytes + item.size > MAX_QUEUED_BYTES
  }

  function Dropped(s: State): State { s.(dropped := s.dropped + 1, lock := Free) }

  /** The batch's bytes are no longer queued. */
  function Freed(s: State): State { s.(queuedBytes := s.queuedBytes - Bytes(s.batch), writer := Writing) }

  function Settled(s: State, failures: nat): State
    requires failures <= |s.batch|
  {
    s.(written := s.written + (|s.batch| - failures), writeFailed := s.writeFailed + failures,
       settled := s.settled + s.batch, batch := [], writer := Waiting)
  }

  /** The state after a step, or `None` where the step is not possible. */
  function Next(s: State, step: Step): Option<State> {
    match step
    case Enter(item, fails) =>
      if s.lock.Free? then Some(s.(lock := Entered(item, fails), calls := s.calls + 1)) else None
    case Check =>
      if !s.lock.Entered? then None
      else if Refused(s, s.lock.item, s.lock.marshalFails) then Some(Dropped(s))
      else Some(s.(lock := Checked(s.lock.item)))
    case Send =>
      if !s.lock.Checked? then None
      else if |s.queue| < CHANNEL_CAPACITY then
        Some(s.(queue := s.queue + [s.lock.item], lock := Sent(s.lock.item), accepted := s.accepted + [s.lock.item]))
      else Some(Dropped(s))
    case Account =>
      if s.lock.Sent? then Some(s.(queuedBytes := s.queuedBytes + s.lock.item.size, lock := Free)) else None
    case Receive =>
      if s.queue != [] && (s.writer.Waiting? || (s.writer.Collecting? && |s.batch| < MAX_BATCH)) then
        Some(s.(batch := s.batch + [s.queue[0]], queue := s.queue[1..], writer := Collecting))
      else None
    case StopCollecting =>
      if s.writer.Collecting? && (s.queue == [] || |s.batch| >= MAX_BATCH) then Some(s.(writer := Releasing)) else None
    case Release =>
      if s.lock.Free? && s.writer.Releasing? then
        Some(Freed(s))
      else None
    case Settle(failures) =>
      if s.lock.Free? && s.writer.Writing? && failures <= |s.batch| then
        Some(Settled(s, failures))
      else None
    case Exit => if s.writer.Waiting? && s.queue == [] && s.closed then Some(s.(writer := Done)) else None
    case Close => if s.lock.Free? then Some(s.(closed := true)) else None
  }

  /** Received, but its bytes are still counted as queued. */
  function Unreleased(s: State): seq<Item> { if s.writer.Collecting? || s.writer.Releasing? then s.batch else [] }

  predicate BytesBalance(s: State) {
    && s.queuedBytes + (if s.lock.Sent? then s.lock.item.size else 0) == Bytes(s.queue) + Bytes(Unreleased(s))
    && 0 <= s.queuedBytes
    && s.queuedBytes + (if s.lock.Checked? || s.lock.Sent? then s.lock.item.size else 0) <= MAX_QUEUED_BYTES
  }

  predicate EventsBalance(s: State) {
    && s.accepted == s.settled + s.batch + s.queue && |s.settled| == s.written + s.writeFailed
    && s.calls == s.dropped + |s.queue| + |s.batch| + s.written + s.writeFailed
                  + (if s.lock.Entered? || s.lock.Checked? then 1 else 0)
  }

  predicate InBounds(s: State) {
    // limits
    && |s.queue| <= CHANNEL_CAPACITY && |s.batch| <= MAX_BATCH
    && (s.batch == [] <==> s.writer.Waiting? || s.writer.Done?)
    // closing
    && (s.lock.Checked? || s.lock.Sent? ==> !s.closed)
    && (s.writer.Done? ==> s.closed && s.queue == [])
  }

  predicate Inv(s: State) { BytesBalance(s) && EventsBalance(s) && InBounds(s) }

  lemma {:induction false} BytesSplit(a: seq<Item>, b: seq<Item>)
    ensures Bytes(a + b) == Bytes(a) + Bytes(b)
    decreases |b|
  {
    if b == [] {
      assert a + b == a;
    } else {
      assert (a + b)[..|a + b| - 1] == a + b[..|b| - 1];
      BytesSplit(a, b[..|b| - 1]);
    }
  }

  lemma BytesOfOne(item: Item)
    ensures Bytes([item]) == item.size
  {
    assert [item][..0] == [];
  }

  /** An item that moves from the queue to the batch stays where it is in the order of events. */
  lemma Regroup(settled: seq<Item>, batch: seq<Item>, queue: seq<Item>)
    requires queue != []
    ensures settled + (batch + [queue[0]]) + queue[1..] == settled + batch + queue
    ensures Bytes(batch + [queue[0]]) + Bytes(queue[1..]) == Bytes(batch) + Bytes(queue)
  {
    var item := queue[0];
    assert queue == [item] + queue[1..];
    BytesOfOne(item);
    BytesSplit([item], queue[1..]);
    BytesSplit(batch, [item]);
  }

  lemma SendKeepsInv(s: State)
    requires Inv(s) && s.lock.Checked?
    ensures Inv(Next(s, Send).value)
  {
    var item := s.lock.item;
    BytesOfOne(item);
    BytesSplit(s.queue, [item]);
    Assoc(s.settled + s.batch, s.queue, [item]);
  }

  lemma ReceiveKeepsBytes(s: State)
    requires Inv(s) && Next(s, Receive).Some?
    ensures BytesBalance(Next(s, Receive).value)
  {
    Regroup(s.settled, s.batch, s.queue);
    assert s.writer.Waiting? ==> s.batch == [];
  }

  lemma ReceiveKeepsEvents(s: State)
    requires EventsBalance(s) && Next(s, Receive).Some?
    ensures EventsBalance(Next(s, Receive).value)
  {
    Regroup(s.settled, s.batch, s.queue);
  }

  lemma ReceiveKeepsInv(s: State)
    requires Inv(s) && Next(s, Receive).Some?
    ensures Inv(Next(s, Receive).value)
  {
    ReceiveKeepsBytes(s);
    ReceiveKeepsEvents(s);
  }

  lemma StepKeepsInv(s: State, step: Step)
    requires Inv(s) && Next(s, step).Some?
    ensures Inv(Next(s, step).value)
  {
    match step
    case Send => SendKeepsInv(s);
    case Receive => ReceiveKeepsInv(s);
    case Settle(_) => assert s.settled + s.batch + [] + s.queue == s.settled + s.batch + s.queue;
    case _ =>
  }

  // ----- whole runs -----

  /** A run; a step that is not possible cannot be taken. */
  predicate Reaches(s: State, steps: seq<Step>, t: State)
    decreases |steps|
  {
    if steps == [] then s == t else Next(s, steps[0]).Some? && Reaches(Next(s, steps[0]).value, steps[1..], t)
  }

  lemma {:induction false} ReachesThen(s: State, steps: seq<Step>, t: State, more: seq<Step>, u: State)
    requires Reaches(s, steps, t) && Reaches(t, more, u)
    ensures Reaches(s, steps + more, u)
    decreases |steps|
  {
    if steps == [] {
      assert steps + more == more;
    } else {
      assert (steps + more)[1..] == steps[1..] + more;
      ReachesThen(Next(s, steps[0]).value, steps[1..], t, more, u);
    }
  }

  lemma {:induction false} RunKeepsInv(s: State, steps: seq<Step>, t: State)
    requires Inv(s) && Reaches(s, steps, t)
    ensures Inv(t)
    decreases |steps|
  {
    if steps != [] {
      StepKeepsInv(s, steps[0]);
      RunKeepsInv(Next(s, steps[0]).value, steps[1..], t);
    }
  }

  ghost predicate Reachable(t: State) { exists s, steps :: Fresh(s) && Reaches(s, steps, t) }

  lemma ReachableInv(t: State)
    requires Reachable(t)
    ensures Inv(t)
  {
    var s, steps :| Fresh(s) && Reaches(s, steps, t);
    RunKeepsInv(s, steps, t);
  }

  /** Whenever the lock is free, in every interleaving: the counters balance, no event is lost,
      duplicated or overtaken, and the memory bound holds. */
  lemma CountersBalance(t: State)
    requires Reachable(t) && t.lock.Free?
    ensures t.queuedBytes == Bytes(t.queue) + Bytes(Unreleased(t)) && 0 <= t.queuedBytes <= 8388608
    ensures t.calls == t.dropped + |t.queue| + |t.batch| + t.written + t.writeFailed
    ensures t.accepted == t.settled + t.batch + t.queue
    ensures |t.queue| <= 4096 && |t.batch| <= 128
  {
    ReachableInv(t);
  }

  /** A send never meets a closed channel, which would panic. */
  lemma NoSendAfterClose(t: State)
    requires Reachable(t) && t.lock.Checked?
    ensures !t.closed
  {
    ReachableInv(t);
  }

  /** `Close` returns when the writer is done: nothing is queued or in flight, and every accepted
      event has been written or has failed. */
  lemma ClosedIsEmpty(t: State)
    requires Reachable(t) && t.writer.Done?
    ensures t.queue == [] && t.batch == [] && t.accepted == t.settled
    ensures t.lock.Free? ==> t.queuedBytes == 0 && t.calls == t.dropped + t.written + t.writeFailed
  {
    ReachableInv(t);
  }

  /** The lock's holder and, once the logger is closed, the writer can always go on. */
  function Onward(s: State): Step {
    if s.lock.Entered? then Check
    else if s.lock.Checked? then Send
    else if s.lock.Sent? then Account
    else if s.writer.Collecting? && (s.queue == [] || |s.batch| >= MAX_BATCH) then StopCollecting
    else if s.writer.Releasing? then Release
    else if s.writer.Writing? then Settle(0)
    else if s.queue != [] then Receive
    else Exit
  }

  /** What the writer still has to do. */
  function WriterDistance(s: State): nat {
    4 * |s.queue|
    + match s.writer case Done => 0 case Waiting => 1 case Writing => 2 case Releasing => 3 case Collecting => 4
  }

  function Distance(s: State): nat {
    WriterDistance(s) + match s.lock case Free => 0 case Sent(_) => 1 case Checked(_) => 6 case Entered(_, _) => 7
  }

  predicate IsWriters(step: Step) {
    step.Receive? || step.StopCollecting? || step.Release? || step.Settle? || step.Exit?
  }

  function WriterSteps(steps: seq<Step>): nat {
    if steps == [] then 0 else (if IsWriters(steps[0]) then 1 else 0) + WriterSteps(steps[1..])
  }

  lemma OnwardIsPossible(s: State)
    requires Inv(s) && s.closed && !(s.writer.Done? && s.lock.Free?)
    ensures Next(s, Onward(s)).Some? && Distance(Next(s, Onward(s)).value) < Distance(s)
  {
  }

  /** From any state of a closed logger the writer gets done, so `Close` returns. */
  lemma {:induction false} CloseReturns(s: State) returns (steps: seq<Step>, t: State)
    requires Inv(s) && s.closed
    ensures Reaches(s, steps, t) && t.writer.Done? && t.lock.Free?
    ensures |steps| <= Distance(s)
    decreases Distance(s)
  {
    if s.writer.Done? && s.lock.Free? {
      return [], s;
    }
    OnwardIsPossible(s);
    StepKeepsInv(s, Onward(s));
    var rest: seq<Step>;
    rest, t := CloseReturns(Next(s, Onward(s)).value);
    steps := [Onward(s)] + rest;
    assert steps[1..] == rest;
  }

  /** Once the logger is closed every possible step leads there, but for new calls, which are dropped,
      and a repeated `Close`; and no caller gives the writer more to do. */
  lemma StepDescends(s: State, step: Step)
    requires Inv(s) && s.closed && Next(s, step).Some?
    ensures var t := Next(s, step).value;
      && (step.Enter? || step.Close? || Distance(t) < Distance(s))
      && WriterDistance(t) + (if IsWriters(step) then 1 else 0) <= WriterDistance(s)
  {
  }

  /** However callers and writer take turns, a closed logger's writer takes no more than so many steps,
      and until it is done either it can take one or the caller that holds the lock can be dropped. */
  lemma {:induction false} WriterGetsDone(s: State, steps: seq<Step>, t: State)
    requires Inv(s) && s.closed && Reaches(s, steps, t)
    ensures t.closed && WriterSteps(steps) + WriterDistance(t) <= WriterDistance(s)
    ensures !t.writer.Done? ==>
      if t.lock.Free? then IsWriters(Onward(t)) && Next(t, Onward(t)).Some?
      else Next(t, Check).Some? && Next(t, Check).value.lock.Free?
    decreases |steps|
  {
    if steps == [] {
      if !t.writer.Done? { OnwardIsPossible(t); }
    } else {
      StepKeepsInv(s, steps[0]);
      StepDescends(s, steps[0]);
      WriterGetsDone(Next(s, steps[0]).value, steps[1..], t);
    }
  }

  // ----- the code -----

  /** `n` receives by the writer, as far as they are possible. */
  function Received(s: State, n: nat): State
    decreases n
  {
    if n == 0 || Next(s, Receive).None? then s else Received(Next(s, Receive).value, n - 1)
  }

  /** The second half of `Log`, during which the writer receives `n` items between the send and the
      accounting. */
  function Offered(checked: State, n: nat): State
    requires checked.lock.Checked?
  {
    var sent := Next(checked, Send).value;
    if sent.lock.Free? then sent
    else
      var r := Received(sent, n);
      r.(queuedBytes := r.queuedBytes + checked.lock.item.size, lock := Free)
  }

  /** A whole call of `Log`. */
  function Logged(s: State, item: Item, marshalFails: bool, n: nat): State
    requires s.lock.Free?
  {
    var checked := Next(Next(s, Enter(item, marshalFails)).value, Check).value;
    if checked.lock.Free? then checked else Offered(checked, n)
  }

  /** An open logger with room takes every event that can be printed in 32 KiB, as long as no more than
      8 MiB are queued with it. */
  predicate Fits(closed: bool, marshalFails: bool, size: nat, queuedBytes: int, queued: nat) {
    !closed && !marshalFails && size <= 32768 && queuedBytes + size <= 8388608 && queued < 4096
  }

  /** A call takes the event exactly if it fits, and else it drops that event and changes nothing else. */
  lemma LoggedIffFits(s: State, item: Item, marshalFails: bool, n: nat)
    requires s.lock.Free?
    ensures var t := Logged(s, item, marshalFails, n);
      if Fits(s.closed, marshalFails, item.size, s.queuedBytes, |s.queue|) then
        && t.accepted == s.accepted + [item] && t.dropped == s.dropped
        && t.queuedBytes == s.queuedBytes + item.size && t.batch + t.queue == s.batch + s.queue + [item]
        && t.lock.Free? && t.closed == s.closed && t.written == s.written && t.writeFailed == s.writeFailed
      else t == s.(calls := s.calls + 1, dropped := s.dropped + 1)
  {
    var checked := Next(Next(s, Enter(item, marshalFails)).value, Check).value;
    if Fits(s.closed, marshalFails, item.size, s.queuedBytes, |s.queue|) {
      var sent := Next(checked, Send).value;
      ReceivedKeeps(sent, n);
      ReceivedMoves(sent, n);
      Assoc(s.batch, s.queue, [item]);
    }
  }

  lemma {:induction false} ReceivedMoves(s: State, n: nat)
    ensures var t := Received(s, n);
      && t.batch + t.queue == s.batch + s.queue && t.accepted == s.accepted && t.dropped == s.dropped
      && t.closed == s.closed && t.written == s.written && t.writeFailed == s.writeFailed
    decreases n
  {
    if n > 0 && Next(s, Receive).Some? {
      ReceivedMoves(Next(s, Receive).value, n - 1);
      assert s.batch + [s.queue[0]] + s.queue[1..] == s.batch + s.queue;
    }
  }

  datatype Call = Call(item: Item, marshalFails: bool)

  /** Calls of `Log` during which the writer receives nothing; only the queue's end changes. */
  function AllLogged(s: State, calls: seq<Call>): (t: State)
    requires s.lock.Free?
    ensures t.lock.Free? && t.writer == s.writer && t.batch == s.batch && t.settled == s.settled
    decreases |calls|
  {
    if calls == [] then s else AllLogged(Logged(s, calls[0].item, calls[0].marshalFails, 0), calls[1..])
  }

  function Rest<T>(s: seq<T>): seq<T> { if s == [] then [] else s[1..] }

  /** The rest of the writer's collect loop, if callers make the calls `calls[k]` before it looks at the
      channel for the k-th time. */
  function Collected(s: State, calls: seq<seq<Call>>): State
    requires s.lock.Free? && s.writer.Collecting?
    decreases MAX_BATCH - |s.batch|
  {
    var t := if calls == [] then s else AllLogged(s, calls[0]);
    if |t.batch| >= MAX_BATCH || t.queue == [] then t.(writer := Releasing)
    else Collected(Next(t, Receive).value, Rest(calls))
  }

  class RedisLogger {
    var queue: seq<Item>
    var batch: seq<Item>
    var writer: Writer
    var closed: bool
    var queuedBytes: int
    var written: nat
    var dropped: nat
    var writeFailed: nat
    ghost var calls: nat
    ghost var accepted: seq<Item>
    ghost var settled: seq<Item>

    /** The lock is free at every call. */
    ghost function Abs(): State
      reads this
    {
      State(queue, batch, writer, Free, closed, queuedBytes, written, dropped, writeFailed, calls, accepted, settled)
    }

    constructor ()
      ensures Fresh(Abs())
    {
      queue, batch, writer, closed := [], [], Waiting, false;
      queuedBytes, written, dropped, writeFailed := 0, 0, 0, 0;
      calls, accepted, settled := 0, [], [];
    }

    /** The writer takes up to `n` items from the channel, whoever holds the lock. */
    method TakeFromChannel(n: nat, ghost lock: Lock)
      modifies this
      ensures Abs().(lock := lock) == Received(old(Abs()).(lock := lock), n)
    {
      ghost var before := Abs();
      var i := 0;
      while i < n && queue != [] && (writer.Waiting? || (writer.Collecting? && |batch| < MAX_BATCH))
        invariant i <= n
        invariant Received(Abs().(lock := lock), n - i) == Received(before.(lock := lock), n)
      {
        batch, queue, writer := batch + [queue[0]], queue[1..], Collecting;
        i := i + 1;
      }
    }

    method Log(item: Item, marshalFails: bool, taken: nat)
      modifies this
      ensures Abs() == Logged(old(Abs()), item, marshalFails, taken)
      ensures
        if Fits(old(closed), marshalFails, item.size, old(queuedBytes), |old(queue)|) then
          accepted == old(accepted) + [item] && dropped == old(dropped) && queuedBytes == old(queuedBytes) + item.size
        else accepted == old(accepted) && dropped == old(dropped) + 1 && queuedBytes == old(queuedBytes)
    {
      LoggedIffFits(Abs(), item, marshalFails, taken);
      calls := calls + 1;
      if closed || marshalFails || item.size > MAX_EVENT_BYTES || queuedBytes + item.size > MAX_QUEUED_BYTES {
        dropped := dropped + 1;
        return;
      }
      TrySend(item, taken);
    }

    /** The `select`: a full channel drops the event. */
    method TrySend(item: Item, taken: nat)
      modifies this
      ensures Abs() == Offered(old(Abs()).(lock := Checked(item)), taken)
    {
      if |queue| >= CHANNEL_CAPACITY {
        dropped := dropped + 1;
        return;
      }
      queue, accepted := queue + [item], accepted + [item];
      TakeFromChannel(taken, Sent(item));
      queuedBytes := queuedBytes + item.size;
    }

    method Close()
      modifies this
      ensures Some(Abs()) == Next(old(Abs()), Step.Close)
    {
      closed := true;
    }

    method LogAll(calls: seq<Call>)
      modifies this
      ensures Abs() == AllLogged(old(Abs()), calls)
    {
      var rest := calls;
      while rest != []
        invariant AllLogged(Abs(), rest) == AllLogged(old(Abs()), calls)
        decreases |rest|
      {
        Log(rest[0].item, rest[0].marshalFails, 0);
        rest := rest[1..];
      }
    }

    /** The collect loop: a blocking receive, then as many as are there, while callers go on logging. */
    method CollectBatch(calls: seq<seq<Call>>)
      requires queue != [] && writer.Waiting? && |batch| == 0
      modifies this
      ensures Abs() == Collected(Next(old(Abs()), Receive).value, calls)
    {
      batch, queue, writer := batch + [queue[0]], queue[1..], Collecting;
      assert Some(Abs()) == Next(old(Abs()), Receive);
      ghost var first := Abs();
      var rest := calls;
      while true
        invariant writer.Collecting? && Collected(Abs(), rest) == Collected(first, calls)
        decreases MAX_BATCH - |batch|
      {
        if rest != [] {
          LogAll(rest[0]);
        }
        if |batch| >= MAX_BATCH || queue == [] {
          writer := Releasing;
          return;
        }
        batch, queue := batch + [queue[0]], queue[1..];
        rest := Rest(rest);
      }
    }

    /** Under the lock, the batch is taken off the byte count one event at a time. */
    method ReleaseBytes()
      requires writer.Releasing?
      modifies this
      ensures Abs() == Freed(old(Abs()))
    {
      for i := 0 to |batch|
        invariant Abs() == old(Abs()).(queuedBytes := queuedBytes)
        invariant queuedBytes == old(queuedBytes) - Bytes(batch[..i])
      {
        assert batch[..i + 1][..i] == batch[..i];
        queuedBytes := queuedBytes - batch[i].size;
      }
      assert batch[..|batch|] == batch;
      writer := Writing;
    }

    /** The results of the pipeline are counted one by one. */
    method CountResults(errors: seq<bool>)
      requires writer.Writing? && |errors| == |batch|
      modifies this
      ensures Failures(errors) <= |errors| && Abs() == Settled(old(Abs()), Failures(errors))
      ensures writeFailed == old(writeFailed) + |Results(errors, true)| && written == old(written) + |Results(errors, false)|
    {
      FailuresBound(errors);
      FailuresAreResults(errors);
      for i := 0 to |errors|
        invariant Failures(errors[..i]) <= i
        invariant writeFailed == old(writeFailed) + Failures(errors[..i])
        invariant written == old(written) + (i - Failures(errors[..i]))
        invariant Abs().(writeFailed := old(writeFailed), written := old(written)) == old(Abs())
      {
        assert errors[..i + 1][..i] == errors[..i];
        if errors[i] { writeFailed := writeFailed + 1; } else { written := written + 1; }
      }
      assert errors[..|errors|] == errors;
      settled, batch, writer := settled + batch, [], Waiting;
    }
  }

  function Failures(errors: seq<bool>): nat {
    if errors == [] then 0 else Failures(errors[..|errors| - 1]) + if errors[|errors| - 1] then 1 else 0
  }

  /** The commands of a batch that failed, or those that did not. */
  ghost function Results(errors: seq<bool>, failed: bool): set<int> {
    set i | 0 <= i < |errors| && errors[i] == failed
  }

  lemma {:induction false} FailuresAreResults(errors: seq<bool>)
    ensures |Results(errors, true)| == Failures(errors) && |Results(errors, false)| == |errors| - Failures(errors)
  {
    if errors != [] {
      var n := |errors| - 1;
      FailuresAreResults(errors[..n]);
      ResultsNext(errors, true);
      ResultsNext(errors, false);
    }
  }

  lemma ResultsNext(errors: seq<bool>, failed: bool)
    requires errors != []
    ensures |Results(errors, failed)|
         == |Results(errors[..|errors| - 1], failed)| + if errors[|errors| - 1] == failed then 1 else 0
  {
    var n := |errors| - 1;
    var before := Results(errors[..n], failed);
    if errors[n] == failed {
      assert Results(errors, failed) == before + {n};
    } else {
      assert Results(errors, failed) == before;
    }
  }

  lemma {:induction false} FailuresBound(errors: seq<bool>)
    ensures Failures(errors) <= |errors|
  {
    if errors != [] { FailuresBound(errors[..|errors| - 1]); }
  }

  lemma OneStep(s: State, steps: seq<Step>, t: State, step: Step)
    requires Reaches(s, steps, t) && Next(t, step).Some?
    ensures Reaches(s, steps + [step], Next(t, step).value)
  {
    assert [step][1..] == [];
    ReachesThen(s, steps, t, [step], Next(t, step).value);
  }

  lemma {:induction false} ReceivedIsRun(s: State, n: nat) returns (steps: seq<Step>)
    ensures Reaches(s, steps, Received(s, n))
    decreases n
  {
    steps := [];
    if n > 0 && Next(s, Receive).Some? {
      var rest := ReceivedIsRun(Next(s, Receive).value, n - 1);
      steps := [Receive] + rest;
      assert steps[1..] == rest;
    }
  }

  lemma {:induction false} ReceivedKeeps(s: State, n: nat)
    ensures var t := Received(s, n); t.lock == s.lock && t.queuedBytes == s.queuedBytes && t.calls == s.calls
    decreases n
  {
    if n > 0 && Next(s, Receive).Some? { ReceivedKeeps(Next(s, Receive).value, n - 1); }
  }

  lemma OfferedIsRun(checked: State, n: nat) returns (steps: seq<Step>)
    requires checked.lock.Checked?
    ensures Reaches(checked, steps, Offered(checked, n)) && Offered(checked, n).calls == checked.calls
  {
    var sent := Next(checked, Send).value;
    steps := [Send];
    assert steps[1..] == [];
    if sent.lock.Sent? {
      var receives := ReceivedIsRun(sent, n);
      ReceivedKeeps(sent, n);
      ReachesThen(checked, steps, sent, receives, Received(sent, n));
      OneStep(checked, steps + receives, Received(sent, n), Account);
      steps := steps + receives + [Account];
    }
  }

  /** A call of `Log` is a run of the state machine, whatever the writer receives meanwhile. */
  lemma LoggedIsRun(s: State, item: Item, marshalFails: bool, n: nat) returns (steps: seq<Step>)
    requires s.lock.Free?
    ensures Reaches(s, steps, Logged(s, item, marshalFails, n))
    ensures Logged(s, item, marshalFails, n).calls == s.calls + 1
  {
    var checked := Next(Next(s, Enter(item, marshalFails)).value, Check).value;
    var rest: seq<Step> := [];
    if checked.lock.Checked? { rest := OfferedIsRun(checked, n); }
    steps := [Enter(item, marshalFails)] + ([Check] + rest);
    assert steps[1..] == [Check] + rest && steps[1..][1..] == rest;
  }

  lemma LoggedKeepsInv(s: State, item: Item, marshalFails: bool, n: nat)
    requires Inv(s) && s.lock.Free?
    ensures Inv(Logged(s, item, marshalFails, n)) && Logged(s, item, marshalFails, n).calls == s.calls + 1
  {
    var steps := LoggedIsRun(s, item, marshalFails, n);
    RunKeepsInv(s, steps, Logged(s, item, marshalFails, n));
  }

  lemma {:induction false} AllLoggedIsRun(s: State, calls: seq<Call>) returns (steps: seq<Step>)
    requires s.lock.Free?
    ensures Reaches(s, steps, AllLogged(s, calls)) && AllLogged(s, calls).calls == s.calls + |calls|
    decreases |calls|
  {
    steps := [];
    if calls != [] {
      var t := Logged(s, calls[0].item, calls[0].marshalFails, 0);
      steps := LoggedIsRun(s, calls[0].item, calls[0].marshalFails, 0);
      var rest := AllLoggedIsRun(t, calls[1..]);
      ReachesThen(s, steps, t, rest, AllLogged(t, calls[1..]));
      steps := steps + rest;
    }
  }

  /** So is collecting a batch, whoever logs meanwhile: it stops at 128 events or at an empty channel,
      and has taken the events that come next in the order of acceptance. */
  lemma {:induction false} CollectedIsRun(s: State, calls: seq<seq<Call>>) returns (steps: seq<Step>)
    requires Inv(s) && s.lock.Free? && s.writer.Collecting?
    ensures var t := Collected(s, calls);
      && Reaches(s, steps, t) && t.writer.Releasing? && t.settled == s.settled
      && (|t.batch| == 128 || t.queue == []) && t.accepted == t.settled + t.batch + t.queue
    decreases MAX_BATCH - |s.batch|
  {
    var t := if calls == [] then s else AllLogged(s, calls[0]);
    steps := [];
    if calls != [] { steps := AllLoggedIsRun(s, calls[0]); }
    RunKeepsInv(s, steps, t);
    if |t.batch| >= MAX_BATCH || t.queue == [] {
      OneStep(s, steps, t, StopCollecting);
      steps := steps + [StopCollecting];
    } else {
      var u := Next(t, Receive).value;
      StepKeepsInv(t, Receive);
      OneStep(s, steps, t, Receive);
      var rest := CollectedIsRun(u, Rest(calls));
      ReachesThen(s, steps + [Receive], u, rest, Collected(u, Rest(calls)));
      steps := steps + [Receive] + rest;
    }
  }
}
