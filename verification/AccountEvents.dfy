/** internal/accountevents/accountevents.go: account changes are queued, coalesced by account and
    delivered in batches; a batch wakes a scheduler at most once. */
module AccountEvents {
  import opened Text

  datatype Kind = Deleted | Created | CredentialChanged | StatusChanged | Updated

  datatype Change = Change(account: int, kind: Kind, origin: string, at: int)

  /** `changePriority` */
  function Priority(k: Kind): nat {
    match k
    case Deleted => 5
    case Created => 4
    case CredentialChanged => 3
    case StatusChanged => 2
    case Updated => 1
  }

  // ----- what a batch must be -----

  /** The change at `i` is the latest one of highest priority for its account. */
  predicate Wins(taken: seq<Change>, i: nat)
    requires i < |taken|
  {
    taken[i].account != 0 &&
    forall j :: 0 <= j < |taken| && taken[j].account == taken[i].account ==>
      Priority(taken[j].kind) < Priority(taken[i].kind) || (Priority(taken[j].kind) == Priority(taken[i].kind) && j <= i)
  }

  predicate Winner(taken: seq<Change>, c: Change) { exists i :: 0 <= i < |taken| && taken[i] == c && Wins(taken, i) }

  predicate Mentions(taken: seq<Change>, account: int) {
    account != 0 && exists i :: 0 <= i < |taken| && taken[i].account == account
  }

  /** Exactly one change for each account that was mentioned, and it is the winner. */
  ghost predicate Coalesces(ids: seq<int>, changes: seq<Change>, taken: seq<Change>) {
    && |ids| == |changes|
    && (forall k :: 0 <= k < |ids| ==> ids[k] == changes[k].account && Winner(taken, changes[k]))
    && (forall j, k :: 0 <= j < k < |ids| ==> ids[j] != ids[k])
    && (forall account :: Mentions(taken, account) ==> account in ids)
  }

  /** There is only one winner for an account, so a batch is determined up to its order. */
  lemma WinnerIsUnique(taken: seq<Change>, c: Change, d: Change)
    requires Winner(taken, c) && Winner(taken, d) && c.account == d.account
    ensures c == d
  {
    var i :| 0 <= i < |taken| && taken[i] == c && Wins(taken, i);
    var j :| 0 <= j < |taken| && taken[j] == d && Wins(taken, j);
    assert taken[i].account == taken[j].account;
  }

  /** The kinds that go before this one. */
  function Above(k: Kind): set<Kind> {
    match k
    case Deleted => {}
    case Created => {Deleted}
    case CredentialChanged => {Deleted, Created}
    case StatusChanged => {Deleted, Created, CredentialChanged}
    case Updated => {Deleted, Created, CredentialChanged, StatusChanged}
  }

  /** What is delivered for an account is the last change of its kind, and no change of a kind that goes
      before was taken for that account: a deletion hides everything, a plain update nothing. */
  lemma WinnerIsSpelledOut(taken: seq<Change>, c: Change)
    ensures Winner(taken, c) <==>
      exists i :: 0 <= i < |taken| && taken[i] == c && c.account != 0 &&
        forall j :: 0 <= j < |taken| && taken[j].account == c.account ==>
          taken[j].kind !in Above(c.kind) && (taken[j].kind == c.kind ==> j <= i)
  {
    forall i | 0 <= i < |taken| && taken[i] == c
      ensures Wins(taken, i) <==> (
        c.account != 0 &&
        forall j :: 0 <= j < |taken| && taken[j].account == c.account ==>
          taken[j].kind !in Above(c.kind) && (taken[j].kind == c.kind ==> j <= i))
    {
      forall k: Kind
        ensures Priority(k) > Priority(c.kind) <==> k in Above(c.kind)
        ensures Priority(k) == Priority(c.kind) <==> k == c.kind
      {
      }
    }
  }

  /** Every change that was taken has a representative at least as important and, if no more
      important, at least as recent. */
  lemma NothingIsUnrepresented(ids: seq<int>, changes: seq<Change>, taken: seq<Change>, j: nat)
    requires Coalesces(ids, changes, taken) && j < |taken| && taken[j].account != 0
    ensures exists k, i ::
      && 0 <= k < |ids| && ids[k] == taken[j].account && 0 <= i < |taken| && changes[k] == taken[i]
      && (Priority(taken[i].kind) > Priority(taken[j].kind) || (Priority(taken[i].kind) == Priority(taken[j].kind) && i >= j))
  {
    assert Mentions(taken, taken[j].account);
    var k :| 0 <= k < |ids| && ids[k] == taken[j].account;
    var i :| 0 <= i < |taken| && taken[i] == changes[k] && Wins(taken, i);
  }

  // ----- the pending map -----

  type Pending = map<int, Change>

  /** `pending` holds the winners of what was taken since the last flush. */
  ghost predicate Holds(pending: Pending, taken: seq<Change>) {
    && (forall account :: account in pending <==> Mentions(taken, account))
    && (forall account :: account in pending ==> pending[account].account == account && Winner(taken, pending[account]))
  }

  function Absorbed(pending: Pending, c: Change): Pending {
    if c.account != 0 && (c.account !in pending || Priority(c.kind) >= Priority(pending[c.account].kind)) then
      pending[c.account := c]
    else pending
  }

  lemma AbsorbKeepsHolds(pending: Pending, taken: seq<Change>, c: Change)
    requires Holds(pending, taken)
    ensures Holds(Absorbed(pending, c), taken + [c])
  {
    var all, next := taken + [c], Absorbed(pending, c);
    forall account ensures account in next <==> Mentions(all, account) {
      MentionsMore(taken, c, account);
    }
    forall account | account in next ensures next[account].account == account && Winner(all, next[account]) {
      if account == c.account && next[account] == c {
        NewWinner(pending, taken, c);
      } else {
        OldWinner(pending, taken, c, account);
      }
    }
  }

  lemma MentionsMore(taken: seq<Change>, c: Change, account: int)
    ensures Mentions(taken + [c], account) <==> Mentions(taken, account) || (account != 0 && c.account == account)
  {
    var all := taken + [c];
    assert all[|taken|] == c && forall i :: 0 <= i < |taken| ==> all[i] == taken[i];
  }

  lemma NewWinner(pending: Pending, taken: seq<Change>, c: Change)
    requires Holds(pending, taken) && c.account != 0
    requires c.account in pending ==> Priority(c.kind) >= Priority(pending[c.account].kind)
    ensures Winner(taken + [c], c)
  {
    var all := taken + [c];
    assert all[|taken|] == c;
    if Mentions(taken, c.account) {
      var i :| 0 <= i < |taken| && taken[i] == pending[c.account] && Wins(taken, i);
      assert Wins(all, |taken|);
    } else {
      assert Wins(all, |taken|);
    }
  }

  lemma OldWinner(pending: Pending, taken: seq<Change>, c: Change, account: int)
    requires Holds(pending, taken) && account in pending
    requires account != c.account || Priority(c.kind) < Priority(pending[account].kind)
    ensures Winner(taken + [c], pending[account])
  {
    var i :| 0 <= i < |taken| && taken[i] == pending[account] && Wins(taken, i);
    assert (taken + [c])[i] == pending[account] && Wins(taken + [c], i);
  }

  // ----- a run of the bus -----

  /** `publishBuffer` */
  const BUFFER: nat := 1024

  /** One turn: a writer publishes, or the delivery loop takes a change, flushes or stops. */
  datatype Turn = Publish(change: Change) | Take | Tick | Stop

  predicate Worth(taken: seq<Change>) { exists i :: 0 <= i < |taken| && taken[i].account != 0 }

  function Flushed(taken: seq<Change>): seq<seq<Change>> { if Worth(taken) then [taken] else [] }

  /** What is taken between two flushes, for every flush that delivers something. */
  function Segments(turns: seq<Turn>, queue: seq<Change>, taken: seq<Change>): seq<seq<Change>>
    decreases |turns|
  {
    if turns == [] then []
    else
      match turns[0]
      case Publish(c) => Segments(turns[1..], if |queue| < BUFFER then queue + [c] else queue, taken)
      case Take => if queue == [] then Segments(turns[1..], queue, taken) else Segments(turns[1..], queue[1..], taken + [queue[0]])
      case Tick => Flushed(taken) + Segments(turns[1..], queue, [])
      case Stop => Flushed(taken)
  }

  /** Every change that the loop takes, up to its stop. */
  function Taken(turns: seq<Turn>, queue: seq<Change>): seq<Change>
    decreases |turns|
  {
    if turns == [] then []
    else
      match turns[0]
      case Publish(c) => Taken(turns[1..], if |queue| < BUFFER then queue + [c] else queue)
      case Take => if queue == [] then Taken(turns[1..], queue) else [queue[0]] + Taken(turns[1..], queue[1..])
      case Tick => Taken(turns[1..], queue)
      case Stop => []
  }

  function Accounted(taken: seq<Change>): seq<Change> {
    if taken == [] then []
    else (if taken[0].account != 0 then [taken[0]] else []) + Accounted(taken[1..])
  }

  function Concat(segments: seq<seq<Change>>): seq<Change> {
    if segments == [] then [] else segments[0] + Concat(segments[1..])
  }

  lemma {:induction false} AccountedSplit(a: seq<Change>, b: seq<Change>)
    ensures Accounted(a + b) == Accounted(a) + Accounted(b)
    decreases |a|
  {
    if a == [] {
      assert a + b == b;
    } else {
      assert (a + b)[1..] == a[1..] + b;
      AccountedSplit(a[1..], b);
    }
  }

  lemma ConcatSplit(a: seq<seq<Change>>, b: seq<seq<Change>>)
    requires |a| <= 1
    ensures Concat(a + b) == Concat(a) + Concat(b)
  {
    if a != [] {
      assert (a + b)[1..] == b && a[1..] == [];
      assert a[0] + [] == a[0];
    } else {
      assert a + b == b;
    }
  }

  lemma {:induction false} WorthIsAccounted(taken: seq<Change>)
    ensures Worth(taken) <==> Accounted(taken) != []
  {
    if taken != [] {
      WorthIsAccounted(taken[1..]);
      if Worth(taken) && taken[0].account == 0 {
        var i :| 0 <= i < |taken| && taken[i].account != 0;
        assert taken[1..][i - 1].account != 0;
      }
      if Worth(taken[1..]) {
        var i :| 0 <= i < |taken[1..]| && taken[1..][i].account != 0;
        assert taken[i + 1].account != 0;
      }
    }
  }

  lemma FlushedIsAccounted(taken: seq<Change>)
    ensures Accounted(Concat(Flushed(taken))) == Accounted(taken)
  {
    WorthIsAccounted(taken);
    if Worth(taken) {
      assert [taken][1..] == [] && taken + [] == taken;
      assert Concat([taken]) == taken;
    }
  }

  /** In a run that is stopped, every change that was taken and names an account is in exactly one
      segment, in the order in which it was taken. */
  lemma {:induction false} SegmentsCoverTaken(turns: seq<Turn>, queue: seq<Change>, taken: seq<Change>)
    requires Stop in turns
    ensures Accounted(Concat(Segments(turns, queue, taken))) == Accounted(taken + Taken(turns, queue))
    decreases |turns|
  {
    match turns[0]
    case Publish(c) => SegmentsCoverTaken(turns[1..], if |queue| < BUFFER then queue + [c] else queue, taken);
    case Take =>
      if queue == [] {
        SegmentsCoverTaken(turns[1..], queue, taken);
      } else {
        SegmentsCoverTaken(turns[1..], queue[1..], taken + [queue[0]]);
        assert taken + [queue[0]] + Taken(turns[1..], queue[1..]) == taken + Taken(turns, queue);
      }
    case Tick =>
      SegmentsCoverTaken(turns[1..], queue, []);
      ConcatSplit(Flushed(taken), Segments(turns[1..], queue, []));
      AccountedSplit(Concat(Flushed(taken)), Concat(Segments(turns[1..], queue, [])));
      FlushedIsAccounted(taken);
      AccountedSplit(taken, Taken(turns[1..], queue));
      assert [] + Taken(turns[1..], queue) == Taken(turns[1..], queue);
    case Stop =>
      FlushedIsAccounted(taken);
      assert taken + [] == taken;
  }

  // ----- the code -----

  datatype Batch = Batch(ids: seq<int>, changes: seq<Change>)

  /** The batches that were delivered stand for these segments. */
  ghost predicate Delivers(batches: seq<Batch>, segments: seq<seq<Change>>) {
    |batches| == |segments| && forall k :: 0 <= k < |batches| ==> Coalesces(batches[k].ids, batches[k].changes, segments[k])
  }

  class Bus {
    var queue: seq<Change>
    var pending: Pending
    var batches: seq<Batch>
    var stopped: bool
    ghost var taken: seq<Change>
    ghost var segments: seq<seq<Change>>

    ghost predicate Valid()
      reads this
    {
      Holds(pending, taken) && Delivers(batches, segments)
    }

    constructor ()
      ensures Valid() && queue == [] && taken == [] && segments == [] && !stopped
    {
      queue, pending, batches, stopped := [], map[], [], false;
      taken, segments := [], [];
    }

    /** Never blocks; a change that finds the queue full is dropped. */
    method Publish(c: Change)
      requires Valid()
      modifies this`queue
      ensures Valid() && queue == if |old(queue)| < 1024 then old(queue) + [c] else old(queue)
    {
      if |queue| < BUFFER {
        queue := queue + [c];
      }
    }

    method Receive()
      requires Valid() && queue != []
      modifies this
      ensures Valid() && queue == old(queue[1..]) && taken == old(taken + [queue[0]])
      ensures segments == old(segments) && batches == old(batches) && stopped == old(stopped)
    {
      var c := queue[0];
      queue := queue[1..];
      AbsorbKeepsHolds(pending, taken, c);
      if c.account != 0 {
        if c.account !in pending || Priority(c.kind) >= Priority(pending[c.account].kind) {
          pending := pending[c.account := c];
        }
      }
      taken := taken + [c];
    }

    method Flush()
      requires Valid()
      modifies this
      ensures Valid() && taken == [] && segments == old(segments + Flushed(taken))
      ensures queue == old(queue) && stopped == old(stopped)
    {
      PendingIsWorth(pending, taken);
      if |pending| == 0 {
        taken := [];
        assert segments + [] == segments;
        return;
      }
      var ids, changes := Listed(pending, taken);
      pending, batches := map[], batches + [Batch(ids, changes)];
      segments, taken := segments + [taken], [];
    }

    method DeliverLoop(turns: seq<Turn>)
      requires Valid() && !stopped
      modifies this
      ensures Valid() && segments == old(segments) + Segments(turns, old(queue), old(taken))
      ensures stopped <==> Stop in turns
    {
      var i := 0;
      assert turns[0..] == turns;
      while i < |turns| && !stopped
        invariant 0 <= i <= |turns| && Valid()
        invariant stopped ==> segments == old(segments) + Segments(turns, old(queue), old(taken)) && Stop in turns
        invariant !stopped ==>
          segments + Segments(turns[i..], queue, taken) == old(segments) + Segments(turns, old(queue), old(taken))
        invariant !stopped ==> Stop !in turns[..i]
      {
        assert turns[i..][0] == turns[i] && turns[i..][1..] == turns[i + 1..];
        match turns[i] {
          case Publish(c) => Publish(c);
          case Take => if queue != [] { Receive(); }
          case Tick =>
            Assoc(segments, Flushed(taken), Segments(turns[i + 1..], queue, []));
            Flush();
          case Stop =>
            Flush();
            stopped := true;
        }
        i := i + 1;
      }
      assert !stopped ==> turns[..i] == turns && turns[i..] == [] && segments + [] == segments;
    }
  }

  lemma PendingIsWorth(pending: Pending, taken: seq<Change>)
    requires Holds(pending, taken)
    ensures pending == map[] <==> !Worth(taken)
  {
    if Worth(taken) {
      var i :| 0 <= i < |taken| && taken[i].account != 0;
      assert Mentions(taken, taken[i].account);
    }
    if pending != map[] {
      assert pending.Keys != {};
      SomeAccount(pending.Keys);
      var account: int :| account in pending.Keys;
      assert Mentions(taken, account);
    }
  }

  lemma NoAccount(accounts: set<int>)
    requires forall account: int :: account !in accounts
    ensures accounts == {}
  {
    forall account: int ensures account in accounts <==> account in {} {}
  }

  lemma SomeAccount(accounts: set<int>)
    requires accounts != {}
    ensures exists account: int :: account in accounts
  {
    if forall account: int :: account !in accounts { NoAccount(accounts); }
  }

  /** The two parallel lists of a flush, filled in whatever order the map is walked. */
  method Listed(pending: Pending, ghost taken: seq<Change>) returns (ids: seq<int>, changes: seq<Change>)
    requires Holds(pending, taken)
    ensures Coalesces(ids, changes, taken)
  {
    ids, changes := [], [];
    var left := pending.Keys;
    while left != {}
      invariant left <= pending.Keys && |ids| == |changes|
      invariant forall k :: 0 <= k < |ids| ==> ids[k] in pending && ids[k] !in left && changes[k] == pending[ids[k]]
      invariant forall j, k :: 0 <= j < k < |ids| ==> ids[j] != ids[k]
      invariant forall account :: account in pending ==> account in left || account in ids
      decreases |left|
    {
      SomeAccount(left);
      var account: int :| account in left;
      ids, changes, left := ids + [account], changes + [pending[account]], left - {account};
    }
  }

  // ----- the one-slot signal -----

  /** Some change of the batch is one that the scheduler reacts to. */
  predicate Eligible(c: Change, allowed: set<Kind>, ignored: set<string>) {
    Trim(c.origin) !in ignored && (allowed != {} ==> c.kind in allowed)
  }

  class Kick {
    var signalled: bool
    const allowed: set<Kind>
    const ignored: set<string>

    constructor (allowed: set<Kind>, ignored: set<string>)
      ensures !signalled && this.allowed == allowed && this.ignored == ignored
    {
      signalled, this.allowed, this.ignored := false, allowed, ignored;
    }

    /** The signal is set by an eligible change and never taken away; a second one is dropped. */
    method AccountChangeBatch(changes: seq<Change>)
      modifies this
      ensures signalled <==> (
        || old(signalled)
        || exists k :: 0 <= k < |changes| && Trim(changes[k].origin) !in ignored && (allowed == {} || changes[k].kind in allowed))
    {
      for k := 0 to |changes|
        invariant signalled == old(signalled)
        invariant forall j :: 0 <= j < k ==> !Eligible(changes[j], allowed, ignored)
      {
        if Trim(changes[k].origin) in ignored {
          continue;
        }
        if allowed != {} && changes[k].kind !in allowed {
          continue;
        }
        signalled := true;
        return;
      }
    }
  }
}
