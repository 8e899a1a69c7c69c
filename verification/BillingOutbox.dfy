/** internal/billingledger/outbox.go: settlement intent is written to disk before the store is
    asked to charge, and erased only after the store has answered.

    The first half is the ledger itself, with every file-system call free to fail.  The second half
    runs it beside the store under an adversary that ends the process, cuts the power, loses answers,
    delays and repeats requests and lets unsynced directory changes survive or vanish. */
module BillingOutbox {
  import opened Text
  import opened BillingEvent

  datatype Entry = Entry(keyId: int, eventId: string, amount: int)

  /** A file name.  The source hashes this text; SHA-256 is taken to be injective. */
  function Name(e: Entry): string { PrintInt(e.keyId) + ([':'] + e.eventId) }

  lemma NameIsIdentity(e: Entry, f: Entry)
    ensures Name(e) == Name(f) <==> e.keyId == f.keyId && e.eventId == f.eventId
  {
    if Name(e) == Name(f) {
      NoColonInInt(e.keyId);
      NoColonInInt(f.keyId);
      CutAtFirst(PrintInt(e.keyId), ':', e.eventId);
      CutAtFirst(PrintInt(f.keyId), ':', f.eventId);
      PrintIntInjective(e.keyId, f.keyId);
    }
  }

  // ----- the directory -----

  type Files = map<string, Entry>

  function Lookup(files: Files, name: string): Option<Entry> {
    if name in files then Some(files[name]) else None
  }

  /** What a reader sees now, and what a power loss could bring back of each name instead, because the
      directory has not been synced since. */
  datatype Disk = Disk(visible: Files, stale: set<(string, Option<Entry>)>)

  function Renamed(d: Disk, name: string, e: Entry): Disk {
    Disk(d.visible[name := e], d.stale + {(name, Lookup(d.visible, name))})
  }

  function Unlinked(d: Disk, name: string): Disk {
    Disk(d.visible - {name}, d.stale + {(name, Lookup(d.visible, name))})
  }

  function Synced(d: Disk): Disk { d.(stale := {}) }

  /** The directory that is found after a power loss. */
  ghost predicate Survives(d: Disk, files: Files) {
    forall n :: Lookup(files, n) == Lookup(d.visible, n) || (n, Lookup(files, n)) in d.stale
  }

  // ----- the ledger -----

  /** The first call that fails while an entry is written; a failing rename may have happened. */
  datatype QueueFault = QueueWorks | TempFileFails | RenameFails(applied: bool) | PublishSyncFails

  datatype RemoveFault = RemoveWorks | UnlinkFails | RemovalSyncFails

  datatype Books = Books(pending: Files, diskErr: bool, disk: Disk)

  function AfterQueue(b: Books, e: Entry, fault: QueueFault): (Books, bool) {
    var name := Name(e);
    if name in b.pending then (b, b.pending[name] == e)
    else
      match fault
      case QueueWorks => (Books(b.pending[name := e], false, Synced(Renamed(b.disk, name, e))), true)
      case TempFileFails => (b.(diskErr := true), false)
      case RenameFails(applied) =>
        (b.(diskErr := true, disk := if applied then Renamed(b.disk, name, e) else b.disk), false)
      case PublishSyncFails => (b.(diskErr := true, disk := Renamed(b.disk, name, e)), false)
  }

  function AfterRemove(b: Books, e: Entry, fault: RemoveFault): (Books, bool) {
    var name := Name(e);
    if name !in b.pending then (b, true)
    else
      match fault
      case UnlinkFails => (b, false)
      case RemovalSyncFails => (b.(disk := Unlinked(b.disk, name)), false)
      case RemoveWorks => (b.(pending := b.pending - {name}, disk := Synced(Unlinked(b.disk, name))), true)
  }

  predicate Valid(e: Entry) { e.keyId > 0 && e.eventId != "" && e.amount >= 0 }

  /** What `New` demands of a file. */
  predicate Loadable(name: string, e: Entry) {
    Valid(e) && Name(e) == name
  }

  const CAPACITY: nat := 10_000

  function InWindow(files: Files, now: int): set<string> {
    set n | n in files && EventExpiry(files[n].eventId, now).Some?
  }

  function Settled(sent: set<string>, answers: map<string, bool>, faults: map<string, RemoveFault>): set<string> {
    set n | n in sent && n in answers && answers[n] && n in faults && faults[n] == RemoveWorks
  }

  lemma OneTurn(files: Files, seen: set<string>, n: string, now: int,
                answers: map<string, bool>, faults: map<string, RemoveFault>)
    requires n in files && n in answers && n in faults && n !in seen
    ensures var live, tried := InWindow(files, now), EventExpiry(files[n].eventId, now).Some?;
      var sent, gone := seen * live, tried && answers[n] && faults[n] == RemoveWorks;
      && (seen + {n}) * live == (if tried then sent + {n} else sent)
      && files - Settled((seen + {n}) * live, answers, faults)
         == (if gone then files - Settled(sent, answers, faults) - {n} else files - Settled(sent, answers, faults))
  {
    var live, tried := InWindow(files, now), EventExpiry(files[n].eventId, now).Some?;
    var gone := tried && answers[n] && faults[n] == RemoveWorks;
    assert (seen + {n}) * live == (if tried then seen * live + {n} else seen * live);
    assert Settled((seen + {n}) * live, answers, faults)
      == (if gone then Settled(seen * live, answers, faults) + {n} else Settled(seen * live, answers, faults));
  }

  class Ledger {
    var pending: Files
    var diskErr: bool
    var disk: Disk

    ghost function Abs(): Books
      reads this
    {
      Books(pending, diskErr, disk)
    }

    constructor Empty(disk: Disk)
      ensures Abs() == Books(map[], false, disk)
    {
      this.pending, this.diskErr, this.disk := map[], false, disk;
    }

    /** Reads the directory back; one file that is not a valid entry keeps the ledger from starting. */
    static method New(disk: Disk) returns (l: Ledger?)
      ensures l == null <==>
        exists n :: n in disk.visible
          && (disk.visible[n].keyId <= 0 || disk.visible[n].eventId == "" || disk.visible[n].amount < 0
              || n != Name(disk.visible[n]))
      ensures l != null ==> fresh(l) && l.Abs() == Books(disk.visible, false, disk)
    {
      l := new Ledger.Empty(disk);
      var names := disk.visible.Keys;
      while names != {}
        invariant fresh(l) && names <= disk.visible.Keys && l.disk == disk && !l.diskErr
        invariant l.pending.Keys == disk.visible.Keys - names
        invariant forall n :: n in l.pending ==> l.pending[n] == disk.visible[n] && Loadable(n, disk.visible[n])
        decreases |names|
      {
        var n :| n in names;
        var e := disk.visible[n];
        if e.keyId <= 0 || e.eventId == "" || e.amount < 0 || Name(e) != n {
          return null;
        }
        l.pending := l.pending[n := e];
        names := names - {n};
      }
    }

    method Ready(now: int) returns (ok: bool)
      ensures ok <==>
        && !diskErr && |pending| < 10_000
        && forall n :: n in pending ==> EventExpiry(pending[n].eventId, now).Some?
    {
      if diskErr || |pending| >= CAPACITY {
        return false;
      }
      var names := pending.Keys;
      while names != {}
        invariant names <= pending.Keys
        invariant forall n :: n in pending && n !in names ==> EventExpiry(pending[n].eventId, now).Some?
        decreases |names|
      {
        var n :| n in names;
        if EventExpiry(pending[n].eventId, now).None? {
          return false;
        }
        names := names - {n};
      }
      return true;
    }

    method Queue(e: Entry, fault: QueueFault) returns (ok: bool)
      modifies this
      ensures (Abs(), ok) == AfterQueue(old(Abs()), e, fault)
      ensures Name(e) in old(pending) ==> Abs() == old(Abs()) && ok == (old(pending)[Name(e)] == e)
      ensures Name(e) !in old(pending) ==>
        && ok == (fault == QueueWorks) && diskErr == !ok
        && pending == (if ok then old(pending)[Name(e) := e] else old(pending))
        && disk.visible == (if fault.TempFileFails? || fault == RenameFails(false) then old(disk.visible)
                            else old(disk.visible)[Name(e) := e])
        && (ok ==> disk.stale == {})
    {
      var name := Name(e);
      if name in pending {
        return pending[name] == e;
      }
      if fault == TempFileFails {
        diskErr := true;
        return false;
      }
      if fault != RenameFails(false) {
        disk := Renamed(disk, name, e);
      }
      if fault != QueueWorks {
        diskErr := true;
        return false;
      }
      disk := Synced(disk);
      pending := pending[name := e];
      diskErr := false;
      return true;
    }

    method Remove(e: Entry, fault: RemoveFault) returns (ok: bool)
      modifies this
      ensures (Abs(), ok) == AfterRemove(old(Abs()), e, fault)
      ensures diskErr == old(diskErr) && ok == (Name(e) !in old(pending) || fault == RemoveWorks)
      ensures pending == if ok then old(pending) - {Name(e)} else old(pending)
      ensures Name(e) in old(pending) ==>
        && disk.visible == (if fault == UnlinkFails then old(disk.visible) else old(disk.visible) - {Name(e)})
        && (ok ==> disk.stale == {})
    {
      var name := Name(e);
      if name !in pending {
        assert pending == pending - {name};
        return true;
      }
      if fault == UnlinkFails {
        return false;
      }
      disk := Unlinked(disk, name);
      if fault == RemovalSyncFails {
        return false;
      }
      disk := Synced(disk);
      pending := pending - {name};
      return true;
    }

    /** One settlement by a lone caller; `answer` is the store's.  Nothing is sent unless the intent
        is on disk, and the intent leaves the disk only for an answer of success. */
    method SettleApiKeyBilling(e: Entry, queueFault: QueueFault, answer: bool, removeFault: RemoveFault)
      returns (sent: bool, ok: bool)
      modifies this
      ensures sent == AfterQueue(old(Abs()), e, queueFault).1
      ensures sent == (if Name(e) in old(pending) then old(pending)[Name(e)] == e else queueFault == QueueWorks)
      ensures ok == (sent && answer && removeFault == RemoveWorks)
      ensures sent ==> pending == if ok then old(pending) - {Name(e)} else old(pending)[Name(e) := e]
      ensures var queued := AfterQueue(old(Abs()), e, queueFault).0;
        (Abs(), ok) == if sent && answer then AfterRemove(queued, e, removeFault) else (queued, false)
    {
      sent := Queue(e, queueFault);
      ok := false;
      if sent && answer {
        ok := Remove(e, removeFault);
      }
    }

    /** A replay that meets no concurrent caller and whose context is cancelled after `turns` turns.  It
        sends exactly the pending events it comes to that are inside their window, and drops exactly
        those the store settles and the disk lets go. */
    method Replay(now: int, turns: nat, answers: map<string, bool>, faults: map<string, RemoveFault>)
      returns (seen: set<string>, sent: set<string>)
      requires NamesFit(pending) && answers.Keys == faults.Keys == pending.Keys
      modifies this
      ensures seen <= old(pending).Keys && |seen| <= turns && (seen == old(pending).Keys || |seen| == turns)
      ensures sent == seen * InWindow(old(pending), now)
      ensures pending == old(pending) - Settled(sent, answers, faults)
      ensures diskErr == old(diskErr)
    {
      var snapshot := pending;
      seen, sent := {}, {};
      while snapshot.Keys - seen != {} && |seen| < turns
        invariant seen <= snapshot.Keys && |seen| <= turns
        invariant sent == seen * InWindow(snapshot, now) && diskErr == old(diskErr)
        invariant pending == snapshot - Settled(sent, answers, faults)
        decreases turns - |seen|
      {
        var n :| n in snapshot.Keys - seen;
        OneTurn(snapshot, seen, n, now, answers, faults);
        var tried, gone := Attempt(snapshot[n], now, answers[n], faults[n]);
        if tried {
          sent := sent + {n};
        }
        seen := seen + {n};
      }
    }

    /** One turn of the replay loop. */
    method Attempt(e: Entry, now: int, answer: bool, fault: RemoveFault) returns (sent: bool, ghost removed: bool)
      modifies this
      ensures sent == EventExpiry(e.eventId, now).Some? && removed == (sent && answer && fault == RemoveWorks)
      ensures pending == if removed then old(pending) - {Name(e)} else old(pending)
      ensures diskErr == old(diskErr)
    {
      sent := EventExpiry(e.eventId, now).Some?;
      removed := sent && answer && fault == RemoveWorks;
      if sent && answer {
        var ok := Remove(e, fault);
        assert Name(e) !in old(pending) ==> pending == old(pending) - {Name(e)};
      }
    }
  }

  predicate NamesFit(files: Files) { forall n :: n in files ==> Name(files[n]) == n }

  // ----- the store -----

  /** Redis, as its settlement script sees it: one receipt per event that has been booked, and the
      bookings themselves, in order.  A receipt is a key that Redis drops once `clock` is past the
      event's expiry. */
  datatype Store = Store(receipts: map<string, int>, bookings: seq<(string, int)>)

  predicate ReceiptLive(s: Store, e: Entry, clock: int) {
    Name(e) in s.receipts && Created(e.eventId).Some? && clock <= Created(e.eventId).value + RETENTION
  }

  datatype Answer = Booked | AlreadyBooked | Failed

  /** `SettleApiKeyBilling` of the store.  `gateway` is the caller's clock, `clock` the clock of Redis,
      which the script reads in whole seconds; `keyExists` is whether the API key is still there. */
  function Settle(s: Store, e: Entry, gateway: int, clock: int, keyExists: bool): (Store, Answer) {
    if e.keyId == 0 || Trim(e.eventId) == "" || e.amount < 0 then (s, Failed)
    else
      match EventExpiry(e.eventId, gateway)
      case None => (s, Failed)
      case Some(expiry) =>
        if !keyExists || expiry <= clock / SECOND * SECOND then (s, Failed)
        else if ReceiptLive(s, e, clock) then
          (s, if s.receipts[Name(e)] == e.amount then AlreadyBooked else Failed)
        else
          (Store(s.receipts[Name(e) := e.amount], s.bookings + [(Name(e), e.amount)]), Booked)
  }

  predicate IsBooked(s: Store, name: string) { exists i :: 0 <= i < |s.bookings| && s.bookings[i].0 == name }

  predicate BookedOnce(s: Store) {
    forall i, j :: 0 <= i < j < |s.bookings| ==> s.bookings[i].0 != s.bookings[j].0
  }

  // ----- the whole system -----

  /** `callers` and `replies` are what the threads of the running process know: the events whose
      intent they saw accepted, or took from the replay snapshot, and those for which they saw the
      store succeed.  `network` holds every request that was ever sent, with its process.
      `offered` and `unsynced` are history: all entries `queue` was ever called with, and those that
      the running process loaded from a directory whose last changes had not been synced, as long
      as no sync has followed. */
  datatype World = World(
    up: bool, process: nat, books: Books, store: Store, clock: int,
    callers: set<Entry>, replies: set<Entry>, network: set<(nat, Entry)>,
    offered: set<Entry>, unsynced: set<Entry>)

  /** A process that is killed inside `queue` is one whose call fails and that then exits. */
  datatype Step =
    | DoQueue(e: Entry, queueFault: QueueFault)
    | TakeSnapshot
    | Send(e: Entry)
    | ReplaySend(e: Entry, gateway: int)
    | Deliver(process: nat, e: Entry, gateway: int, keyExists: bool, answered: bool)
    | DoRemove(e: Entry, removeFault: RemoveFault)
    | Tick(clock: int)
    | Exit
    | PowerLoss(survivors: Files)
    | Restart

  ghost predicate Enabled(w: World, s: Step) {
    match s
    case DoQueue(_, _) => w.up
    case TakeSnapshot => w.up
    case Send(e) => w.up && e in w.callers
    case ReplaySend(e, gateway) => w.up && e in w.callers && EventExpiry(e.eventId, gateway).Some?
    case Deliver(process, e, _, _, _) => (process, e) in w.network
    case DoRemove(e, _) => w.up && e in w.replies
    case Tick(clock) => w.clock <= clock
    case Exit => w.up
    case PowerLoss(survivors) => Survives(w.books.disk, survivors)
    case Restart => !w.up && forall n :: n in w.books.disk.visible ==> Loadable(n, w.books.disk.visible[n])
  }

  /** A power loss could leave something else under the name of this entry. */
  ghost predicate Shaky(d: Disk, e: Entry) { exists v :: (Name(e), v) in d.stale && v != Some(e) }

  /** A sync of the directory covers whatever was loaded from it. */
  function StillUnsynced(d: Disk, unsynced: set<Entry>): set<Entry> { if d.stale == {} then {} else unsynced }

  /** The process is gone, and with it all that was only in memory. */
  function Stopped(w: World, disk: Disk): World {
    w.(up := false, process := w.process + 1, callers := {}, replies := {},
       books := Books(map[], false, disk), unsynced := {})
  }

  /** A request is delivered any number of times, at any time after it was sent, also when the
      process that sent it is gone; its answer may be lost.  A process that exits leaves the directory
      as its readers saw it, and the next one loads that without syncing it. */
  ghost function Next(w: World, s: Step): World
    requires Enabled(w, s)
  {
    match s
    case DoQueue(e, fault) =>
      var (books, ok) := AfterQueue(w.books, e, fault);
      w.(books := books, offered := w.offered + {e}, unsynced := StillUnsynced(books.disk, w.unsynced),
         callers := if ok then w.callers + {e} else w.callers)
    case TakeSnapshot => w.(callers := w.callers + w.books.pending.Values)
    case Send(e) => w.(network := w.network + {(w.process, e)})
    case ReplaySend(e, _) => w.(network := w.network + {(w.process, e)})
    case Deliver(process, e, gateway, keyExists, answered) =>
      var (store, answer) := Settle(w.store, e, gateway, w.clock, keyExists);
      if answered && answer != Failed && w.up && process == w.process then
        w.(store := store, replies := w.replies + {e})
      else w.(store := store)
    case DoRemove(e, fault) =>
      var books := AfterRemove(w.books, e, fault).0;
      w.(books := books, unsynced := StillUnsynced(books.disk, w.unsynced))
    case Tick(clock) => w.(clock := clock)
    case Exit => Stopped(w, w.books.disk)
    case PowerLoss(survivors) => Stopped(w, Disk(survivors, {}))
    case Restart =>
      var disk := w.books.disk;
      w.(up := true, books := Books(disk.visible, false, disk),
         unsynced := set e | e in disk.visible.Values && Shaky(disk, e))
  }

  const GENESIS :=
    World(true, 0, Books(map[], false, Disk(map[], {})), Store(map[], []), 0, {}, {}, {}, {}, {})

  ghost predicate IsPath(run: seq<World>, steps: seq<Step>) {
    && |run| == |steps| + 1
    && forall i :: 0 <= i < |steps| ==> Enabled(run[i], steps[i]) && run[i + 1] == Next(run[i], steps[i])
  }

  ghost predicate IsRun(run: seq<World>, steps: seq<Step>) { IsPath(run, steps) && run[0] == GENESIS }

  // ----- safety -----

  /** The entry is there for every reader, and no power loss can change that. */
  ghost predicate OnDisk(d: Disk, e: Entry) { Lookup(d.visible, Name(e)) == Some(e) && !Shaky(d, e) }

  /** Everything a power loss can leave in the directory is an entry that was offered, under its name. */
  predicate DiskFits(d: Disk, offered: set<Entry>) {
    && (forall n :: n in d.visible ==> Name(d.visible[n]) == n && d.visible[n] in offered)
    && (forall p :: p in d.stale && p.1.Some? ==> Name(p.1.value) == p.0 && p.1.value in offered)
  }

  predicate ReceiptsMatch(s: Store) {
    && BookedOnce(s)
    && (forall i :: 0 <= i < |s.bookings| ==> s.bookings[i].0 in s.receipts)
    && (forall n :: n in s.receipts ==> IsBooked(s, n))
  }

  /** Every pending event is booked or in the directory, and shaky there only if it was loaded so. */
  ghost predicate PendingHolds(pending: Files, d: Disk, booked: set<string>, unsynced: set<Entry>) {
    && NamesFit(pending)
    && (forall n :: n in pending && n !in booked ==>
          && Lookup(d.visible, n) == Some(pending[n])
          && (Shaky(d, pending[n]) ==> pending[n] in unsynced))
    && (forall e :: e in unsynced ==> Lookup(pending, Name(e)) == Some(e) && Shaky(d, e))
  }

  ghost predicate BooksInv(b: Books, booked: set<string>, offered: set<Entry>, unsynced: set<Entry>) {
    DiskFits(b.disk, offered) && PendingHolds(b.pending, b.disk, booked, unsynced)
  }

  ghost predicate Inv(w: World) {
    && ReceiptsMatch(w.store)
    && BooksInv(w.books, w.store.receipts.Keys, w.offered, w.unsynced)
    && (!w.up ==> w.books.pending == map[])
    && (forall e :: e in w.replies ==> Name(e) in w.store.receipts)
  }

  lemma BookingKeepsReceipts(s: Store, name: string, amount: int)
    requires ReceiptsMatch(s) && name !in s.receipts
    ensures ReceiptsMatch(Store(s.receipts[name := amount], s.bookings + [(name, amount)]))
  {
    var after := Store(s.receipts[name := amount], s.bookings + [(name, amount)]);
    assert after.bookings[|s.bookings|].0 == name;
    forall n | n in after.receipts ensures IsBooked(after, n) {
      if n != name {
        var i :| 0 <= i < |s.bookings| && s.bookings[i].0 == n;
        assert after.bookings[i].0 == n;
      }
    }
  }

  /** The script books an event only if it has no receipt, also when Redis has dropped receipts: by
      then the event is expired, and the script refuses it whatever the gateway's clock says. */
  lemma BookedWithoutReceipt(s: Store, e: Entry, gateway: int, clock: int, keyExists: bool)
    ensures var (after, answer) := Settle(s, e, gateway, clock, keyExists);
      match answer
      case Booked =>
        Name(e) !in s.receipts && after == Store(s.receipts[Name(e) := e.amount], s.bookings + [(Name(e), e.amount)])
      case AlreadyBooked => Name(e) in s.receipts && s.receipts[Name(e)] == e.amount && after == s
      case Failed => after == s
  {
    if EventExpiry(e.eventId, gateway).Some? {
      var expiry := EventExpiry(e.eventId, gateway).value;
      if expiry > clock / SECOND * SECOND { WholeSeconds(expiry, clock); }
    }
  }

  lemma SettleKeepsReceipts(s: Store, e: Entry, gateway: int, clock: int, keyExists: bool)
    requires ReceiptsMatch(s)
    ensures var (after, answer) := Settle(s, e, gateway, clock, keyExists);
      && ReceiptsMatch(after) && s.receipts.Keys <= after.receipts.Keys && s.bookings <= after.bookings
      && (answer != Failed ==> Name(e) in after.receipts)
  {
    BookedWithoutReceipt(s, e, gateway, clock, keyExists);
    if Name(e) !in s.receipts { BookingKeepsReceipts(s, Name(e), e.amount); }
  }

  /** An expiry on a whole second that is later than the current second is later than now. */
  lemma WholeSeconds(expiry: int, clock: int)
    requires expiry % SECOND == 0 && clock / SECOND * SECOND < expiry
    ensures clock <= expiry
  {
    assert expiry == expiry / SECOND * SECOND;
  }

  lemma PowerLossFits(d: Disk, survivors: Files, offered: set<Entry>)
    requires Survives(d, survivors) && DiskFits(d, offered)
    ensures DiskFits(Disk(survivors, {}), offered)
  {
    forall n | n in survivors ensures Name(survivors[n]) == n && survivors[n] in offered {
      assert Lookup(survivors, n) == Some(survivors[n]);
    }
  }

  lemma OnDiskSurvives(d: Disk, survivors: Files, e: Entry)
    requires Survives(d, survivors) && OnDisk(d, e)
    ensures Lookup(survivors, Name(e)) == Some(e)
  {
    var v := Lookup(survivors, Name(e));
    assert v == Lookup(d.visible, Name(e)) || (Name(e), v) in d.stale;
  }

  /** A change of one name leaves what is known of the others, and a sync makes it firm. */
  lemma OthersStay(d: Disk, after: Disk, name: string, was: Option<Entry>, e: Entry)
    requires after.stale == d.stale + {(name, was)} || after.stale == {}
    requires Name(e) != name && Lookup(after.visible, Name(e)) == Lookup(d.visible, Name(e))
    ensures Shaky(after, e) ==> Shaky(d, e)
    ensures OnDisk(d, e) ==> OnDisk(after, e)
  {
  }

  lemma StepKeepsInv(w: World, s: Step)
    requires Inv(w) && Enabled(w, s)
    ensures Inv(Next(w, s))
    ensures w.store.bookings <= Next(w, s).store.bookings && w.store.receipts.Keys <= Next(w, s).store.receipts.Keys
  {
    match s
    case DoQueue(e, fault) => QueueKeepsBooks(w.books, w.store.receipts.Keys, w.offered, w.unsynced, e, fault);
    case DoRemove(e, fault) => RemoveKeepsBooks(w.books, w.store.receipts.Keys, w.offered, w.unsynced, e, fault);
    case Deliver(process, e, gateway, keyExists, answered) =>
      SettleKeepsReceipts(w.store, e, gateway, w.clock, keyExists);
    case PowerLoss(survivors) => PowerLossFits(w.books.disk, survivors, w.offered);
    case _ =>
  }

  lemma RenamedFits(d: Disk, e: Entry, offered: set<Entry>)
    requires DiskFits(d, offered)
    ensures DiskFits(d, offered + {e}) && DiskFits(Renamed(d, Name(e), e), offered + {e})
  {
  }

  lemma QueueKeepsBooks(b: Books, booked: set<string>, offered: set<Entry>, unsynced: set<Entry>, e: Entry, fault: QueueFault)
    requires BooksInv(b, booked, offered, unsynced)
    ensures var after := AfterQueue(b, e, fault).0;
      BooksInv(after, booked, offered + {e}, StillUnsynced(after.disk, unsynced))
  {
    var name := Name(e);
    var after := AfterQueue(b, e, fault).0;
    RenamedFits(b.disk, e, offered);
    if name !in b.pending && after.disk != b.disk {
      RenamedKeepsPending(b, booked, unsynced, e);
    }
  }

  /** Only the renamed entry itself, which is not pending, gets shaky. */
  lemma RenamedKeepsPending(b: Books, booked: set<string>, unsynced: set<Entry>, e: Entry)
    requires Name(e) !in b.pending && PendingHolds(b.pending, b.disk, booked, unsynced)
    ensures PendingHolds(b.pending, Renamed(b.disk, Name(e), e), booked, unsynced)
    ensures PendingHolds(b.pending[Name(e) := e], Synced(Renamed(b.disk, Name(e), e)), booked, {})
  {
    var after := Renamed(b.disk, Name(e), e);
    forall n | n in b.pending ensures Shaky(after, b.pending[n]) ==> Shaky(b.disk, b.pending[n]) {
      OthersStay(b.disk, after, Name(e), Lookup(b.disk.visible, Name(e)), b.pending[n]);
    }
  }

  lemma UnlinkedKeepsPending(b: Books, booked: set<string>, unsynced: set<Entry>, name: string)
    requires name in booked && PendingHolds(b.pending, b.disk, booked, unsynced)
    ensures PendingHolds(b.pending, Unlinked(b.disk, name), booked, unsynced)
    ensures PendingHolds(b.pending - {name}, Synced(Unlinked(b.disk, name)), booked, {})
  {
    var after := Unlinked(b.disk, name);
    forall n | n in b.pending && n != name ensures Shaky(after, b.pending[n]) ==> Shaky(b.disk, b.pending[n]) {
      OthersStay(b.disk, after, name, Lookup(b.disk.visible, name), b.pending[n]);
    }
  }

  lemma RemoveKeepsBooks(b: Books, booked: set<string>, offered: set<Entry>, unsynced: set<Entry>, e: Entry, fault: RemoveFault)
    requires BooksInv(b, booked, offered, unsynced) && Name(e) in booked
    ensures var after := AfterRemove(b, e, fault).0;
      BooksInv(after, booked, offered, StillUnsynced(after.disk, unsynced))
  {
    UnlinkedKeepsPending(b, booked, unsynced, Name(e));
  }

  lemma {:induction false} RunKeepsInv(run: seq<World>, steps: seq<Step>, i: nat)
    requires IsRun(run, steps) && i < |run|
    ensures Inv(run[i])
  {
    if i > 0 {
      RunKeepsInv(run, steps, i - 1);
      StepKeepsInv(run[i - 1], steps[i - 1]);
    }
  }

  /** Whatever fails, whoever calls at the same time, however often the process ends and requests are
      repeated or delayed: no event is charged twice. */
  lemma ChargedAtMostOnce(run: seq<World>, steps: seq<Step>)
    requires IsRun(run, steps)
    ensures BookedOnce(run[|run| - 1].store)
  {
    RunKeepsInv(run, steps, |run| - 1);
  }

  /** Charged, or safely on disk and, while a process runs, pending in it: what no step can undo. */
  ghost predicate Kept(w: World, e: Entry) {
    || Name(e) in w.store.receipts
    || (OnDisk(w.books.disk, e) && (w.up ==> Lookup(w.books.pending, Name(e)) == Some(e)))
  }

  lemma StepKeepsKept(w: World, s: Step, e: Entry)
    requires Inv(w) && Enabled(w, s) && Kept(w, e)
    ensures Kept(Next(w, s), e)
  {
    StepKeepsInv(w, s);
    if Name(e) !in w.store.receipts {
      match s {
        case DoQueue(f, fault) =>
          if Name(f) != Name(e) { QueueKeepsOthers(w.books, f, fault, e); }
        case DoRemove(f, fault) => RemoveKeepsOthers(w.books, f, fault, e);
        case PowerLoss(survivors) => OnDiskSurvives(w.books.disk, survivors, e);
        case _ =>
      }
    }
  }

  lemma QueueKeepsOthers(b: Books, f: Entry, fault: QueueFault, e: Entry)
    requires Name(f) != Name(e) && OnDisk(b.disk, e)
    ensures var after := AfterQueue(b, f, fault).0;
      OnDisk(after.disk, e) && Lookup(after.pending, Name(e)) == Lookup(b.pending, Name(e))
  {
    var after := AfterQueue(b, f, fault).0;
    if after.disk != b.disk { OthersStay(b.disk, after.disk, Name(f), Lookup(b.disk.visible, Name(f)), e); }
  }

  lemma RemoveKeepsOthers(b: Books, f: Entry, fault: RemoveFault, e: Entry)
    requires Name(f) != Name(e) && OnDisk(b.disk, e)
    ensures var after := AfterRemove(b, f, fault).0;
      OnDisk(after.disk, e) && Lookup(after.pending, Name(e)) == Lookup(b.pending, Name(e))
  {
    var after := AfterRemove(b, f, fault).0;
    if after.disk != b.disk { OthersStay(b.disk, after.disk, Name(f), Lookup(b.disk.visible, Name(f)), e); }
  }

  lemma {:induction false} KeptAlong(run: seq<World>, steps: seq<Step>, i: nat, j: nat, e: Entry)
    requires IsPath(run, steps) && i <= j < |run| && Inv(run[i]) && Kept(run[i], e)
    ensures Inv(run[j]) && Kept(run[j], e)
    decreases j
  {
    if i < j {
      KeptAlong(run, steps, i, j - 1, e);
      StepKeepsInv(run[j - 1], steps[j - 1]);
      StepKeepsKept(run[j - 1], steps[j - 1], e);
    }
  }

  // ----- what an accepted intent is worth -----

  /** Charged, or there for the next process to load. */
  ghost predicate Found(w: World, e: Entry) {
    IsBooked(w.store, Name(e)) || Lookup(w.books.disk.visible, Name(e)) == Some(e)
  }

  /** Whatever happens from here on. */
  ghost predicate NeverLost(w: World, e: Entry) {
    forall run, steps :: IsPath(run, steps) && run[0] == w ==> Found(run[|run| - 1], e)
  }

  /** What the ledger counts as pending is safe if and only if it is charged already or was not loaded
      from an unsynced directory.  Amounts are part of it: the very entry is there. */
  lemma PendingIsSafeExactly(run: seq<World>, steps: seq<Step>, e: Entry)
    requires IsRun(run, steps) && Lookup(run[|run| - 1].books.pending, Name(e)) == Some(e)
    ensures var w := run[|run| - 1]; NeverLost(w, e) <==> IsBooked(w.store, Name(e)) || e !in w.unsynced
  {
    var w := run[|run| - 1];
    RunKeepsInv(run, steps, |run| - 1);
    if IsBooked(w.store, Name(e)) || e !in w.unsynced {
      KeptIsNeverLost(w, e);
    } else {
      ShakyIsLost(w, e);
    }
  }

  lemma KeptIsNeverLost(w: World, e: Entry)
    requires Inv(w) && Kept(w, e)
    ensures NeverLost(w, e)
  {
    forall run, steps | IsPath(run, steps) && run[0] == w ensures Found(run[|run| - 1], e) {
      KeptAlong(run, steps, 0, |run| - 1, e);
    }
  }

  lemma ShakyIsLost(w: World, e: Entry)
    requires Shaky(w.books.disk, e) && !IsBooked(w.store, Name(e))
    ensures !NeverLost(w, e)
  {
    var name, d := Name(e), w.books.disk;
    var v :| (name, v) in d.stale && v != Some(e);
    var survivors := if v == None then d.visible - {name} else d.visible[name := v.value];
    assert Lookup(survivors, name) == v;
    var step := PowerLoss(survivors);
    assert Enabled(w, step);
    assert IsPath([w, Next(w, step)], [step]) && !Found(Next(w, step), e);
  }

  ghost predicate Accepts(w: World, s: Step, e: Entry) {
    s.DoQueue? && s.e == e && AfterQueue(w.books, e, s.queueFault).1
  }

  lemma AcceptedIsPending(w: World, s: Step, e: Entry)
    requires Inv(w) && Enabled(w, s) && Accepts(w, s, e)
    ensures Lookup(Next(w, s).books.pending, Name(e)) == Some(e) && (e in Next(w, s).unsynced <==> e in w.unsynced)
  {
  }

  /** An entry for which `queue` has just returned nil is safe under exactly the same condition. */
  lemma AcceptedIsSafeExactly(run: seq<World>, steps: seq<Step>, e: Entry)
    requires IsRun(run, steps) && |steps| > 0 && Accepts(run[|steps| - 1], steps[|steps| - 1], e)
    ensures NeverLost(run[|steps|], e) <==> IsBooked(run[|steps|].store, Name(e)) || e !in run[|steps| - 1].unsynced
  {
    var n := |steps|;
    RunKeepsInv(run, steps, n - 1);
    AcceptedIsPending(run[n - 1], steps[n - 1], e);
    PendingIsSafeExactly(run, steps, e);
  }

  /** Once `queue` has returned nil, having written the entry or found it pending and synced, the event
      is charged or this entry survives every power loss, in every later state. */
  lemma AcceptedIsNeverLost(run: seq<World>, steps: seq<Step>, i: nat, j: nat, e: Entry)
    requires IsRun(run, steps) && i < j < |run| && Accepts(run[i], steps[i], e)
    requires Name(e) !in run[i].books.pending || e !in run[i].unsynced
    ensures IsBooked(run[j].store, Name(e))
      || forall files :: Survives(run[j].books.disk, files) ==> Lookup(files, Name(e)) == Some(e)
  {
    RunKeepsInv(run, steps, i);
    RunKeepsInv(run, steps, i + 1);
    KeptAlong(run, steps, i + 1, j, e);
    if OnDisk(run[j].books.disk, e) {
      forall files | Survives(run[j].books.disk, files) ensures Lookup(files, Name(e)) == Some(e) {
        OnDiskSurvives(run[j].books.disk, files, e);
      }
    }
  }

  /** The other case exists: a rename whose sync fails, a process that ends, its successor, which loads
      the entry and so accepts it unsynced, and a power loss. */
  lemma UnsyncedEntryIsLost(e: Entry)
    requires Loadable(Name(e), e)
    ensures exists run, steps ::
      && IsRun(run, steps)
      && steps == [DoQueue(e, PublishSyncFails), Exit, Restart, DoQueue(e, QueueWorks), PowerLoss(map[])]
      && Accepts(run[3], steps[3], e) && !Found(run[5], e)
  {
    var name := Name(e);
    var disk := Disk(map[name := e], {(name, None)});
    var w1 := Next(GENESIS, DoQueue(e, PublishSyncFails));
    assert w1.books.disk == disk;
    var w2 := Next(w1, Exit);
    assert Enabled(w2, Restart);
    var w3 := Next(w2, Restart);
    var w4 := Next(w3, DoQueue(e, QueueWorks));
    assert w4.books == Books(map[name := e], false, disk);
    assert Survives(disk, map[]);
    var w5 := Next(w4, PowerLoss(map[]));
    var steps := [DoQueue(e, PublishSyncFails), Exit, Restart, DoQueue(e, QueueWorks), PowerLoss(map[])];
    var run := [GENESIS, w1, w2, w3, w4, w5];
    assert IsRun(run, steps);
    assert Accepts(run[3], steps[3], e) && !Found(run[5], e);
  }

  // ----- the gate -----

  predicate Writes(w: World, s: Step) { s.DoQueue? && Name(s.e) !in w.books.pending }

  /** The latest call of `queue` that had to write, since the process started, met a fault. */
  ghost predicate LatestWriteFailed(run: seq<World>, steps: seq<Step>, n: nat)
    requires n <= |steps| < |run|
  {
    exists i :: 0 <= i < n && Writes(run[i], steps[i]) && steps[i].queueFault != QueueWorks && Quiet(run, steps, i, n)
  }

  /** No writing call, and no end or start of the process, between two moments. */
  ghost predicate Quiet(run: seq<World>, steps: seq<Step>, i: nat, n: nat)
    requires n <= |steps| < |run|
  {
    forall k :: i < k < n ==> !Writes(run[k], steps[k]) && !TurnsOver(steps[k])
  }

  predicate TurnsOver(s: Step) { s == Exit || s.PowerLoss? || s == Restart }

  lemma LatestStep(run: seq<World>, steps: seq<Step>, n: nat)
    requires n < |steps| < |run|
    ensures LatestWriteFailed(run, steps, n + 1)
      <==> if Writes(run[n], steps[n]) then steps[n].queueFault != QueueWorks
           else !TurnsOver(steps[n]) && LatestWriteFailed(run, steps, n)
  {
    if Writes(run[n], steps[n]) {
      assert Quiet(run, steps, n, n + 1);
    } else if !TurnsOver(steps[n]) {
      forall i: nat | i < n ensures Quiet(run, steps, i, n + 1) == Quiet(run, steps, i, n) {
      }
    }
  }

  lemma DiskErrorStep(w: World, s: Step)
    requires Enabled(w, s)
    ensures Next(w, s).books.diskErr
      == if Writes(w, s) then s.queueFault != QueueWorks else !TurnsOver(s) && w.books.diskErr
  {
  }

  /** What `Ready` refuses for: the ledger remembers a disk error exactly if the latest write failed, so
      any of the three faults closes the gate and the next write that works opens it again. */
  lemma {:induction false} DiskErrorIsLatestWrite(run: seq<World>, steps: seq<Step>, n: nat)
    requires IsRun(run, steps) && n <= |steps|
    ensures run[n].books.diskErr <==> LatestWriteFailed(run, steps, n)
  {
    if n > 0 {
      DiskErrorIsLatestWrite(run, steps, n - 1);
      DiskErrorStep(run[n - 1], steps[n - 1]);
      LatestStep(run, steps, n - 1);
    }
  }

  // ----- restarting -----

  /** A ledger that was only ever offered valid entries can always be restarted. */
  lemma ValidEntriesReload(run: seq<World>, steps: seq<Step>, i: nat)
    requires IsRun(run, steps) && i < |run| && !run[i].up
    requires forall e :: e in run[i].offered ==> Valid(e)
    ensures Enabled(run[i], Restart)
  {
    RunKeepsInv(run, steps, i);
  }

  /** A process that ends while an invalid entry is safely on disk has no successor, ever. */
  lemma {:induction false} InvalidEntryBlocksRestart(run: seq<World>, steps: seq<Step>, i: nat, k: nat, e: Entry)
    requires IsPath(run, steps) && i < k < |run| && (steps[i] == Exit || steps[i].PowerLoss?)
    requires OnDisk(run[i].books.disk, e) && !Valid(e)
    ensures !run[k].up && OnDisk(run[k].books.disk, e)
    decreases k
  {
    if i + 1 < k { InvalidEntryBlocksRestart(run, steps, i, k - 1, e); }
    assert Name(e) in run[k - 1].books.disk.visible;
    if steps[k - 1].PowerLoss? { OnDiskSurvives(run[k - 1].books.disk, steps[k - 1].survivors, e); }
  }

  /** `queue` itself does not check its entry: when it works, an invalid one gets there. */
  lemma QueuedIsOnDisk(b: Books, e: Entry)
    requires Name(e) !in b.pending
    ensures var (after, ok) := AfterQueue(b, e, QueueWorks); ok && OnDisk(after.disk, e)
  {
  }

  /** A settlement that is repeated after it was booked, with its identity still inside the window,
      succeeds and books nothing, so a lost answer can always be asked for again. */
  lemma RepeatedSettlementSucceeds(s: Store, e: Entry, gateway: int, clock: int, later: int, clockThen: int)
    requires Settle(s, e, gateway, clock, true).1 == Booked && clock <= clockThen
    requires EventExpiry(e.eventId, later).Some? && EventExpiry(e.eventId, later).value > clockThen
    ensures var after := Settle(s, e, gateway, clock, true).0;
      Settle(after, e, later, clockThen, true) == (after, AlreadyBooked)
  {
    assert clockThen / SECOND * SECOND <= clockThen;
  }

  /** Without faults a settlement of an event inside its window is charged and leaves no debt. */
  lemma HealthySettlementLeavesNoDebt(b: Books, s: Store, e: Entry, gateway: int, clock: int)
    requires Name(e) !in b.pending && Name(e) !in s.receipts
    requires e.keyId > 0 && e.amount >= 0 && Trim(e.eventId) != ""
    requires EventExpiry(e.eventId, gateway).Some? && clock < EventExpiry(e.eventId, gateway).value
    ensures var queued := AfterQueue(b, e, QueueWorks);
      var (after, answer) := Settle(s, e, gateway, clock, true);
      var removed := AfterRemove(queued.0, e, RemoveWorks);
      && queued.1 && answer == Booked && removed.1
      && after.bookings == s.bookings + [(Name(e), e.amount)]
      && removed.0.pending == b.pending && Name(e) !in removed.0.disk.visible && removed.0.disk.stale == {}
  {
    assert clock / SECOND * SECOND <= clock;
    var queued := AfterQueue(b, e, QueueWorks).0;
    assert queued.pending - {Name(e)} == b.pending;
  }
}
