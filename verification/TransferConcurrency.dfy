/**
 Bank A's money-moving transactions statement by statement: key lookup, account locks in sorted
 order, insert with the unique key, affordability check, entries, saga and outbox rows, commit.
 Uncommitted writes are private to their call; any call can fail and roll back at any point.
 Every run, however interleaved, is a run of the one-step transactions of `BankARuns`.
 */
module TransferConcurrency {
  import opened Prelude
  import opened Totals
  import opened Ledger
  import opened Outbox
  import opened BankAModel
  import HubModel
  import A = BankARuns

  datatype Kind = Local | Interbank(payeeBank: BankId, payeeRef: string) | Refund(outcome: A.Outcome) | Seed

  datatype Phase =
    | Started
    | Locking(next: nat)
    | Inserted
    | Affordable
    | Appended
    | Enqueued
    | Skipped
    | Lost
    | Done(result: Result<Uuid, Error>)

  /** The rows a transaction has written and not committed. */
  datatype Writes = Writes(
    transfers: map<Uuid, Transfer>,
    entries: seq<Entry<Uuid>>,
    interbank: map<Uuid, BankAModel.Interbank>,
    outbox: seq<Row<HubModel.Request>>)

  const NO_WRITES := Writes(map[], [], map[], [])

  datatype Call = Call(kind: Kind, id: Uuid, transfer: Transfer, held: set<Uuid>, writes: Writes, phase: Phase)

  datatype World = World(db: BankDb, calls: map<nat, Call>)

  datatype Action =
    | Start(call: nat, kind: Kind, id: Uuid, transfer: Transfer)
    | Lookup(call: nat)
    | Lock(call: nat)
    | Insert(call: nat)
    | Check(call: nat)
    | Append(call: nat)
    | Enqueue(call: nat)
    | Commit(call: nat)
    | LookupWinner(call: nat)
    | Fail(call: nat)
    | Confirm(outcome: A.Outcome)
    | OpenAccount(account: Uuid)

  /** Both accounts in sorted order for a local transfer, only the payer for an interbank one;
      refunds and seeds lock no account. */
  function LockOrder(call: Call): seq<Uuid> {
    var t := call.transfer;
    match call.kind
    case Local => Sorted(t.payer, t.payee)
    case Interbank(_, _) => [t.payer]
    case _ => []
  }

  predicate Awaits(call: Call) {
    call.phase.Locking? && call.phase.next < |LockOrder(call)|
  }

  /** The account of the lock statement a call is at. */
  function Awaited(call: Call): Uuid
    requires Awaits(call)
  {
    LockOrder(call)[call.phase.next]
  }

  predicate LockedAll(call: Call) {
    call.phase.Locking? && call.phase.next == |LockOrder(call)|
  }

  /** The accounts and keys each kind of call uses. A client may name any account, suspense
      included, and send any key, one that spells a generated key included. */
  predicate WellFormed(kind: Kind, id: Uuid, t: Transfer) {
    && ValidTransfer(t)
    && match kind
       case Local => true
       case Interbank(_, _) => t.payee == SUSPENSE
       case Refund(o) => o.verdict != HubModel.CONFIRMED && t.key == CompensationKey(o.id) && t.payer == SUSPENSE
       case Seed => t == A.Seed(id, t.payee, t.amount)
  }

  /** The transaction has inserted its transfers row, so it holds the unique key. */
  predicate HoldsKey(call: Call) {
    call.phase == Inserted || call.phase == Affordable || call.phase == Appended || call.phase == Enqueued
  }

  predicate AccountFree(w: World, c: nat, account: Uuid) {
    forall d :: d in w.calls && d != c ==> account !in w.calls[d].held
  }

  predicate KeyFree(w: World, c: nat, key: Key) {
    forall d :: d in w.calls && d != c && HoldsKey(w.calls[d]) ==> w.calls[d].transfer.key != key
  }

  predicate ReadyToCommit(call: Call) {
    match call.kind
    case Interbank(_, _) => call.phase == Enqueued
    case Refund(_) => call.phase == Appended || call.phase == Skipped
    case _ => call.phase == Appended
  }

  /** A refund starts when a handler reads DEBITED; what becomes of the transfer until the
      refund commits is open. */
  predicate CanStart(w: World, a: Action)
    requires a.Start?
  {
    && a.call !in w.calls && WellFormed(a.kind, a.id, a.transfer)
    && a.id !in w.db.transfers && (forall d :: d in w.calls ==> w.calls[d].id != a.id)
    && (a.kind.Refund? ==>
          var original := a.kind.outcome.id;
          && original in w.db.interbank && original in w.db.transfers
          && w.db.interbank[original].status == DEBITED
          && a.transfer == Reversal(w.db, original))
  }

  predicate Enabled(w: World, a: Action) {
    match a
    case Start(_, _, _, _) => CanStart(w, a)
    case Lookup(c) => c in w.calls && w.calls[c].phase == Started
    case Lock(c) =>
      && c in w.calls && Awaits(w.calls[c])
      && AccountFree(w, c, Awaited(w.calls[c]))
    case Insert(c) =>
      && c in w.calls && LockedAll(w.calls[c])
      && KeyFree(w, c, w.calls[c].transfer.key)
    case Check(c) => c in w.calls && w.calls[c].phase == Inserted
    case Append(c) => c in w.calls && w.calls[c].phase == Affordable
    case Enqueue(c) => c in w.calls && w.calls[c].phase == Appended && w.calls[c].kind.Interbank?
    case Commit(c) =>
      && c in w.calls && ReadyToCommit(w.calls[c])
      && (w.calls[c].phase == Skipped ==> w.calls[c].transfer.key in w.db.keys)
    case LookupWinner(c) => c in w.calls && w.calls[c].phase == Lost
    case Fail(c) => c in w.calls && !w.calls[c].phase.Done?
    case Confirm(o) => o.verdict == HubModel.CONFIRMED && o.id in w.db.interbank
    case OpenAccount(_) => true
  }

  /** What a lookup of a taken key answers. */
  function Replay(db: BankDb, call: Call): Result<Uuid, Error>
    requires call.transfer.key in db.keys
  {
    var destination := if call.kind.Interbank? then Some((call.kind.payeeBank, call.kind.payeeRef)) else None;
    Replayed(db, call.transfer, destination)
  }

  function Ended(call: Call, result: Result<Uuid, Error>): Call {
    call.(held := {}, writes := NO_WRITES, phase := Done(result))
  }

  function Merge(db: BankDb, call: Call): BankDb {
    var ws := call.writes;
    var merged := db.(
      transfers := db.transfers + ws.transfers,
      keys := if ws.transfers == map[] then db.keys else db.keys[call.transfer.key := call.id],
      ledger := db.ledger + ws.entries,
      interbank := db.interbank + ws.interbank,
      outbox := db.outbox + ws.outbox);
    if call.kind.Refund? then merged.(interbank := Marked(merged.interbank, call.kind.outcome.id, COMPENSATED))
    else merged
  }

  /** The next state of the acting call. */
  function Moved(w: World, a: Action): Call
    requires Enabled(w, a) && !a.Start? && !a.Confirm? && !a.OpenAccount?
  {
    var call, db := w.calls[a.call], w.db;
    match a
    case Lookup(_) =>
      if call.transfer.key in db.keys then Ended(call, Replay(db, call)) else call.(phase := Locking(0))
    case Lock(_) =>
      var account := Awaited(call);
      if account !in db.accounts then Ended(call, Err(AccountNotFound(account)))
      else call.(held := call.held + {account}, phase := Locking(call.phase.next + 1))
    case Insert(_) =>
      if !ValidKey(call.transfer.key) then Ended(call, Err(Database))
      else if call.transfer.key in db.keys then
        if call.kind.Refund? then call.(phase := Skipped)
        else if call.kind.Seed? then Ended(call, Err(Database))
        else call.(held := {}, phase := Lost)
      else if call.transfer.payer !in db.accounts || call.transfer.payee !in db.accounts then Ended(call, Err(Database))
      else call.(writes := call.writes.(transfers := map[call.id := call.transfer]),
                 phase := if call.kind.Refund? || call.kind.Seed? then Affordable else Inserted)
    case Check(_) =>
      var balance := BalanceOf(db.ledger, call.transfer.payer);
      if !IsSafeInteger(balance) then Ended(call, Err(InvalidAmount))
      else if balance < call.transfer.amount then Ended(call, Err(InsufficientFunds))
      else call.(phase := Affordable)
    case Append(_) =>
      var t := call.transfer;
      call.(writes := call.writes.(entries := Movement(call.id, t.payer, t.payee, t.amount)), phase := Appended)
    case Enqueue(_) =>
      if !ValidRef(call.kind.payeeRef) then Ended(call, Err(Database))
      else
        var k := call.kind;
        var row := BankAModel.Interbank(k.payeeBank, k.payeeRef, DEBITED);
        var event := Row(call.id, RequestFor(call.id, k.payeeBank, k.payeeRef, call.transfer.amount));
        call.(writes := call.writes.(interbank := map[call.id := row], outbox := [event]), phase := Enqueued)
    case Commit(_) => Ended(call, Ok(if call.phase == Skipped then db.keys[call.transfer.key] else call.id))
    case LookupWinner(_) =>
      Ended(call, if call.transfer.key in db.keys then Replay(db, call) else Err(Vanished))
    case Fail(_) => Ended(call, Err(Database))
  }

  function Do(w: World, a: Action): World
    requires Enabled(w, a)
  {
    match a
    case Start(c, kind, id, t) =>
      var phase := if kind.Refund? || kind.Seed? then Locking(0) else Started;
      w.(calls := w.calls[c := Call(kind, id, t, {}, NO_WRITES, phase)])
    case Confirm(o) => w.(db := Confirmed(w.db, o.id))
    case OpenAccount(account) => w.(db := w.db.(accounts := w.db.accounts + {account}))
    case Commit(c) => World(Merge(w.db, w.calls[c]), w.calls[c := Moved(w, a)])
    case _ => w.(calls := w.calls[a.call := Moved(w, a)])
  }

  predicate Legal(w: World, run: seq<Action>)
    decreases |run|
  {
    run == [] || (Enabled(w, run[0]) && Legal(Do(w, run[0]), run[1..]))
  }

  function After(w: World, run: seq<Action>): World
    requires Legal(w, run)
    decreases |run|
  {
    if run == [] then w else After(Do(w, run[0]), run[1..])
  }

  const START := World(EMPTY_BANK, map[])

  // ----- the invariant ----------------------------------------------------------------------

  /** The first n accounts of a lock order. */
  function Locks(order: seq<Uuid>, n: nat): set<Uuid>
    requires n <= |order|
  {
    if n == 0 then {} else Locks(order, n - 1) + {order[n - 1]}
  }

  predicate HeldOk(call: Call) {
    var order := LockOrder(call);
    match call.phase
    case Locking(next) => next <= |order| && call.held == Locks(order, next)
    case Started | Lost | Done(_) => call.held == {}
    case _ => call.held == Locks(order, |order|)
  }

  predicate WritesOk(call: Call) {
    var t, ws := call.transfer, call.writes;
    match call.phase
    case Inserted | Affordable => ws == Writes(map[call.id := t], [], map[], [])
    case Appended => ws == Writes(map[call.id := t], Movement(call.id, t.payer, t.payee, t.amount), map[], [])
    case Enqueued =>
      && call.kind.Interbank?
      && ws == Writes(map[call.id := t], Movement(call.id, t.payer, t.payee, t.amount),
                      map[call.id := BankAModel.Interbank(call.kind.payeeBank, call.kind.payeeRef, DEBITED)],
                      [Row(call.id, RequestFor(call.id, call.kind.payeeBank, call.kind.payeeRef, t.amount))])
    case _ => ws == NO_WRITES
  }

  /** The committed transfer a successful call answers with is the one the call asked for. */
  predicate Matches(db: BankDb, call: Call, id: Uuid) {
    && id in db.transfers && db.transfers[id] == call.transfer
    && (call.kind.Interbank? ==>
          && id in db.interbank
          && db.interbank[id].payeeBank == call.kind.payeeBank && db.interbank[id].payeeRef == call.kind.payeeRef)
  }

  /** A successful call answers with the transfer that holds its key; a refund may have found
      the key held by something else, a client call never. */
  predicate Answers(db: BankDb, call: Call, id: Uuid) {
    && call.transfer.key in db.keys && db.keys[call.transfer.key] == id
    && (!call.kind.Refund? ==> Matches(db, call, id))
  }

  predicate PhaseOk(db: BankDb, call: Call) {
    var t := call.transfer;
    && (HoldsKey(call) ==> ValidKey(t.key) && t.key !in db.keys && t.payer in db.accounts && t.payee in db.accounts)
    && (call.phase == Affordable || call.phase == Appended || call.phase == Enqueued ==> Covered(db, t))
    && (call.phase == Started || call.phase == Inserted || call.phase == Lost ==>
          call.kind.Local? || call.kind.Interbank?)
    && (call.phase == Enqueued ==> call.kind.Interbank? && ValidRef(call.kind.payeeRef))
    && (call.phase == Skipped ==> call.kind.Refund? && t.key in db.keys)
    && (call.phase == Lost ==> t.key in db.keys)
    && (call.phase.Done? && call.phase.result.Ok? ==> Answers(db, call, call.phase.result.value))
    && call.phase != Done(Err(Vanished))
  }

  predicate ReversalOk(db: BankDb, call: Call) {
    call.kind.Refund? ==>
      && call.kind.outcome.id in db.interbank && call.kind.outcome.id in db.transfers
      && call.transfer == Reversal(db, call.kind.outcome.id)
  }

  predicate CallOk(db: BankDb, call: Call) {
    && WellFormed(call.kind, call.id, call.transfer)
    && HeldOk(call) && WritesOk(call) && PhaseOk(db, call) && ReversalOk(db, call)
    && (call.id in db.transfers ==> call.phase == Done(Ok(call.id)))
  }

  predicate CallsOk(w: World) {
    forall c :: c in w.calls ==> CallOk(w.db, w.calls[c])
  }

  /** Locks, held keys and generated ids are exclusive. */
  predicate Exclusive(w: World) {
    forall c, d :: c in w.calls && d in w.calls && c != d ==> Apart(w.calls[c], w.calls[d])
  }

  predicate Apart(c: Call, d: Call) {
    && c.held !! d.held
    && c.id != d.id
    && (HoldsKey(c) && HoldsKey(d) ==> c.transfer.key != d.transfer.key)
  }

  ghost predicate Inv(w: World) {
    RowsOk(w.db) && NoOverdraft(w.db) && CallsOk(w) && Exclusive(w)
  }

  lemma StartInv()
    ensures Inv(START)
  {
    EmptyBankOk();
  }

  // ----- refinement -------------------------------------------------------------------------

  /** The steps of the one-step machine that a statement amounts to: a commit is its whole
      transaction, a refund reads when it starts, and a refund that fails is a crashed handler. */
  function BankSteps(w: World, a: Action): seq<A.Action>
    requires Enabled(w, a)
  {
    match a
    case Start(_, kind, _, _) => if kind.Refund? then [A.Read(kind.outcome)] else []
    case Commit(c) => [CommitStep(w.calls[c])]
    case Confirm(o) => if w.db.interbank[o.id].status == DEBITED then [A.Read(o), A.Confirm(o)] else []
    case OpenAccount(account) => [A.OpenAccount(account)]
    case _ => EndSteps(w.calls[a.call], Moved(w, a))
  }

  function EndSteps(call: Call, moved: Call): seq<A.Action> {
    if call.kind.Refund? && moved.phase.Done? then [A.Crash(call.kind.outcome)] else []
  }

  function CommitStep(call: Call): A.Action {
    match call.kind
    case Local => A.Local(call.id, call.transfer)
    case Interbank(payeeBank, payeeRef) => A.Interbank(call.id, call.transfer, payeeBank, payeeRef)
    case Seed => A.DevSeed(call.id, call.transfer.payee, call.transfer.amount)
    case Refund(o) => A.Compensate(o, call.id)
  }

  function BankRun(w: World, run: seq<Action>): seq<A.Action>
    requires Legal(w, run)
    decreases |run|
  {
    if run == [] then [] else BankSteps(w, run[0]) + BankRun(Do(w, run[0]), run[1..])
  }

  /** The refunds that have read an outcome and not ended. */
  function Handling(calls: map<nat, Call>, o: A.Outcome): set<nat> {
    set c | c in calls && calls[c].kind == Refund(o) && !calls[c].phase.Done?
  }

  /** Same tables, and one handler for every unfinished refund. */
  ghost predicate Refines(w: World, b: A.Bank) {
    b.db == w.db && Tracks(w.calls, b.handlers)
  }

  ghost predicate Tracks(calls: map<nat, Call>, handlers: multiset<A.Outcome>) {
    forall o :: handlers[o] == |Handling(calls, o)|
  }

  /** The rows written statement by statement are those of the one-step transaction. */
  lemma MergeIsTransaction(db: BankDb, call: Call)
    requires CallOk(db, call) && ReadyToCommit(call)
    ensures Merge(db, call) ==
            match call.kind
            case Interbank(payeeBank, payeeRef) => Debited(db, call.id, call.transfer, payeeBank, payeeRef)
            case Refund(o) => Compensated(db, o.id, call.id)
            case _ => Booked(db, call.id, call.transfer)
  {
    var t, ws := call.transfer, call.writes;
    if call.phase != Skipped {
      assert call.id in ws.transfers;
      assert db.transfers + map[call.id := t] == db.transfers[call.id := t];
    } else {
      assert db.transfers + map[] == db.transfers;
      assert db.ledger + [] == db.ledger;
    }
    if !call.kind.Interbank? {
      assert db.interbank + map[] == db.interbank;
      assert db.outbox + [] == db.outbox;
    }
  }

  /** At the instant of commit the locks still guarantee everything the one-step transaction
      checks: the key is free, both accounts exist, and the payer can afford it. */
  lemma CommitIsTransaction(w: World, c: nat, handlers: multiset<A.Outcome>)
    requires Inv(w) && Enabled(w, Commit(c))
    requires w.calls[c].kind.Refund? ==> w.calls[c].kind.outcome in handlers
    ensures var b, x := A.Bank(w.db, handlers), CommitStep(w.calls[c]);
            && A.Enabled(b, x) && A.Do(b, x).db == Merge(w.db, w.calls[c])
            && A.Do(b, x).handlers ==
               if w.calls[c].kind.Refund? then handlers - multiset{w.calls[c].kind.outcome} else handlers
  {
    assert CallOk(w.db, w.calls[c]);
    MergeIsTransaction(w.db, w.calls[c]);
  }

  // ----- one step ---------------------------------------------------------------------------

  predicate NeedsCover(call: Call) {
    call.phase == Affordable || call.phase == Appended || call.phase == Enqueued
  }

  lemma CallStays(db: BankDb, db': BankDb, call: Call)
    requires CallOk(db, call) && A.Extends(db, db') && db.accounts <= db'.accounts
    requires call.id in db'.transfers ==> call.id in db.transfers
    requires HoldsKey(call) ==> call.transfer.key !in db'.keys
    requires NeedsCover(call) ==> Covered(db', call.transfer)
    requires ReversalOk(db', call)
    ensures CallOk(db', call)
  {
  }

  lemma CommitExtends(w: World, c: nat)
    requires Inv(w) && Enabled(w, Commit(c))
    ensures A.Extends(w.db, Merge(w.db, w.calls[c]))
  {
    var b, x := Committing(w, c), CommitStep(w.calls[c]);
    CommitIsTransaction(w, c, b.handlers);
    assert RowOk(w.db, w.calls[c].id);
    A.StepExtends(b, x);
  }

  /** The one-step machine just before a commit, with only the committing handler. */
  function Committing(w: World, c: nat): A.Bank
    requires c in w.calls
  {
    A.Bank(w.db, if w.calls[c].kind.Refund? then multiset{w.calls[c].kind.outcome} else multiset{})
  }

  /** A commit adds one transfer id and one key. */
  lemma MergeAdds(db: BankDb, call: Call)
    requires CallOk(db, call) && ReadyToCommit(call)
    ensures var db' := Merge(db, call);
            && db'.accounts == db.accounts
            && (forall id :: id in db'.transfers ==> id in db.transfers || id == call.id)
            && (forall key :: key in db'.keys ==> key in db.keys || (HoldsKey(call) && key == call.transfer.key))
            && (forall id :: id in db.interbank ==> id in db'.interbank)
  {
  }

  lemma CommitKeepsOthers(w: World, c: nat, d: nat)
    requires Inv(w) && Enabled(w, Commit(c)) && d in w.calls && d != c
    ensures CallOk(Merge(w.db, w.calls[c]), w.calls[d])
  {
    var call, other := w.calls[c], w.calls[d];
    CommitExtends(w, c);
    assert CallOk(w.db, call) && CallOk(w.db, other) && Apart(call, other);
    MergeKeepsOther(w.db, call, other);
  }

  lemma MergeKeepsOther(db: BankDb, call: Call, other: Call)
    requires CallOk(db, call) && CallOk(db, other) && Apart(call, other) && ReadyToCommit(call)
    requires A.Extends(db, Merge(db, call))
    ensures CallOk(Merge(db, call), other)
  {
    MergeAdds(db, call);
    if NeedsCover(other) && Checked(other.transfer.payer) {
      OthersKeepCover(db, call, other);
    }
    CallStays(db, Merge(db, call), other);
  }

  lemma {:induction false} LocksHave(order: seq<Uuid>, n: nat, i: nat)
    requires i < n <= |order|
    ensures order[i] in Locks(order, n)
  {
    if i < n - 1 {
      LocksHave(order, n - 1, i);
    }
  }

  lemma PayerIsLocked(call: Call)
    requires WellFormed(call.kind, call.id, call.transfer) && HeldOk(call)
    requires call.phase.Affordable? || call.phase.Appended? || call.phase.Enqueued?
    ensures Checked(call.transfer.payer) ==> call.transfer.payer in call.held
  {
    var order := LockOrder(call);
    if Checked(call.transfer.payer) {
      var i := if order[0] == call.transfer.payer then 0 else 1;
      LocksHave(order, |order|, i);
    }
  }

  /** Nobody else can debit an account this call has locked. */
  lemma OthersKeepCover(db: BankDb, call: Call, other: Call)
    requires CallOk(db, call) && CallOk(db, other) && Apart(call, other) && ReadyToCommit(call)
    requires NeedsCover(other) && Checked(other.transfer.payer)
    ensures Covered(Merge(db, call), other.transfer)
  {
    MergeIsTransaction(db, call);
    var t, payer := call.transfer, other.transfer.payer;
    PayerIsLocked(other);
    if call.phase != Skipped {
      PayerIsLocked(call);
    }
    AppendMovement(db.ledger, call.id, t.payer, t.payee, t.amount, payer, 0);
  }

  lemma ConfirmKeepsCalls(w: World, o: A.Outcome)
    requires Inv(w) && Enabled(w, Confirm(o))
    ensures CallsOk(Do(w, Confirm(o)))
  {
    var db' := Confirmed(w.db, o.id);
    ConfirmExtends(w.db, o.id);
    forall d | d in w.calls ensures CallOk(db', w.calls[d]) {
      assert CallOk(w.db, w.calls[d]);
      CallStays(w.db, db', w.calls[d]);
    }
  }

  lemma ConfirmExtends(db: BankDb, id: Uuid)
    ensures A.Extends(db, Confirmed(db, id))
  {
  }

  lemma ReplayMatches(db: BankDb, call: Call)
    requires RowsOk(db) && call.transfer.key in db.keys
    ensures Replay(db, call) != Err(Vanished)
    ensures Replay(db, call).Ok? ==> Answers(db, call, Replay(db, call).value)
  {
    assert KeyOk(db, call.transfer.key);
  }

  lemma LockOrderSorted(call: Call)
    requires WellFormed(call.kind, call.id, call.transfer)
    ensures forall i, j :: 0 <= i < j < |LockOrder(call)| ==> LockOrder(call)[i] < LockOrder(call)[j]
  {
  }

  lemma LockKeepsCall(db: BankDb, call: Call)
    requires CallOk(db, call) && Awaits(call)
    ensures CallOk(db, call.(held := call.held + {Awaited(call)}, phase := Locking(call.phase.next + 1)))
  {
    var next := call.(held := call.held + {Awaited(call)}, phase := Locking(call.phase.next + 1));
    assert LockOrder(next) == LockOrder(call);
    assert HeldOk(next);
  }

  lemma EndKeepsCall(db: BankDb, call: Call, result: Result<Uuid, Error>)
    requires CallOk(db, call) && !call.phase.Done?
    requires result != Err(Vanished) && (result.Ok? ==> Answers(db, call, result.value))
    ensures CallOk(db, Ended(call, result))
  {
  }

  lemma InsertedKeepsCall(db: BankDb, call: Call, phase: Phase)
    requires CallOk(db, call) && LockedAll(call)
    requires call.transfer.payer in db.accounts && call.transfer.payee in db.accounts
    requires ValidKey(call.transfer.key) && call.transfer.key !in db.keys
    requires if call.kind.Local? || call.kind.Interbank? then phase == Inserted else phase == Affordable
    ensures CallOk(db, call.(writes := call.writes.(transfers := map[call.id := call.transfer]), phase := phase))
  {
    var next := call.(writes := call.writes.(transfers := map[call.id := call.transfer]), phase := phase);
    assert LockOrder(next) == LockOrder(call);
    assert HeldOk(next) && WritesOk(next);
    assert !Checked(SUSPENSE) && !Checked(DEV_TREASURY);
  }

  /** When the key turns out to be taken a refund goes on without its row. */
  lemma SkippingKeepsCall(db: BankDb, call: Call)
    requires CallOk(db, call) && LockedAll(call) && call.transfer.key in db.keys && call.kind.Refund?
    ensures CallOk(db, call.(phase := Skipped))
  {
    var next := call.(phase := Skipped);
    assert LockOrder(next) == LockOrder(call) == [];
    assert HeldOk(next) && WritesOk(next) && PhaseOk(db, next) && ReversalOk(db, next);
  }

  lemma LosingKeepsCall(db: BankDb, call: Call)
    requires CallOk(db, call) && LockedAll(call) && call.transfer.key in db.keys
    requires call.kind.Local? || call.kind.Interbank?
    ensures CallOk(db, call.(held := {}, phase := Lost))
  {
    var next := call.(held := {}, phase := Lost);
    assert HeldOk(next) && WritesOk(next) && PhaseOk(db, next) && ReversalOk(db, next);
  }

  lemma InsertKeepsCall(w: World, c: nat)
    requires CallsOk(w) && Enabled(w, Insert(c))
    ensures CallOk(w.db, Moved(w, Insert(c)))
  {
    var call, next := w.calls[c], Moved(w, Insert(c));
    assert CallOk(w.db, call);
    if next.phase.Done? {
      EndKeepsCall(w.db, call, next.phase.result);
    } else if next.phase == Skipped {
      SkippingKeepsCall(w.db, call);
    } else if next.phase == Lost {
      LosingKeepsCall(w.db, call);
    } else {
      InsertedKeepsCall(w.db, call, next.phase);
    }
  }

  lemma WriteKeepsCall(w: World, a: Action)
    requires CallsOk(w) && Enabled(w, a) && (a.Check? || a.Append? || a.Enqueue?)
    ensures CallOk(w.db, Moved(w, a))
  {
    var call, next := w.calls[a.call], Moved(w, a);
    assert CallOk(w.db, call);
    if next.phase.Done? {
      EndKeepsCall(w.db, call, next.phase.result);
    } else {
      assert LockOrder(next) == LockOrder(call);
      assert HeldOk(next) && WritesOk(next);
    }
  }

  /** A step of one call that does not commit leaves the call well formed. */
  lemma MoveKeepsCall(w: World, a: Action)
    requires RowsOk(w.db) && CallsOk(w) && Enabled(w, a)
    requires !a.Start? && !a.Confirm? && !a.OpenAccount? && !a.Commit?
    ensures CallOk(w.db, Moved(w, a))
  {
    var call, db := w.calls[a.call], w.db;
    assert CallOk(db, call);
    match a {
      case Lookup(_) =>
        if call.transfer.key in db.keys {
          ReplayMatches(db, call);
          EndKeepsCall(db, call, Replay(db, call));
        }
      case Lock(_) =>
        if Awaited(call) in db.accounts {
          LockKeepsCall(db, call);
        } else {
          EndKeepsCall(db, call, Err(AccountNotFound(Awaited(call))));
        }
      case Insert(c) => InsertKeepsCall(w, c);
      case LookupWinner(_) =>
        ReplayMatches(db, call);
        EndKeepsCall(db, call, Replay(db, call));
      case Fail(_) => EndKeepsCall(db, call, Err(Database));
      case _ => WriteKeepsCall(w, a);
    }
  }

  lemma MoveKeepsApart(w: World, a: Action, d: nat)
    requires Enabled(w, a) && !a.Start? && !a.Confirm? && !a.OpenAccount?
    requires d in w.calls && d != a.call && Apart(w.calls[a.call], w.calls[d])
    ensures Apart(Moved(w, a), w.calls[d]) && Apart(w.calls[d], Moved(w, a))
  {
  }

  lemma StartedCallOk(w: World, a: Action)
    requires Enabled(w, a) && a.Start?
    ensures CallOk(w.db, Do(w, a).calls[a.call])
  {
    assert HeldOk(Do(w, a).calls[a.call]);
  }

  lemma OpenKeepsCalls(w: World, account: Uuid)
    requires CallsOk(w)
    ensures CallsOk(Do(w, OpenAccount(account)))
  {
    var db' := Do(w, OpenAccount(account)).db;
    forall d | d in w.calls ensures CallOk(db', w.calls[d]) {
      assert CallOk(w.db, w.calls[d]);
      CallStays(w.db, db', w.calls[d]);
    }
  }

  lemma StepKeepsCalls(w: World, a: Action)
    requires Inv(w) && Enabled(w, a)
    ensures CallsOk(Do(w, a))
  {
    var w' := Do(w, a);
    match a {
      case Start(c, _, _, _) => StartedCallOk(w, a);
      case Confirm(o) => ConfirmKeepsCalls(w, o);
      case OpenAccount(account) => OpenKeepsCalls(w, account);
      case Commit(c) =>
        CommitKeepsCall(w, c);
        forall d | d in w'.calls ensures CallOk(w'.db, w'.calls[d]) {
          if d != c {
            CommitKeepsOthers(w, c, d);
          }
        }
      case _ =>
        MoveKeepsCall(w, a);
    }
  }

  lemma CommitKeepsCall(w: World, c: nat)
    requires Inv(w) && Enabled(w, Commit(c))
    ensures CallOk(Merge(w.db, w.calls[c]), Moved(w, Commit(c)))
  {
    var call := w.calls[c];
    assert CallOk(w.db, call);
    MergeIsTransaction(w.db, call);
    assert KeyOk(w.db, call.transfer.key);
  }

  lemma PairStaysApart(w: World, a: Action, c: nat, d: nat)
    requires Exclusive(w) && Enabled(w, a) && !a.Confirm? && !a.OpenAccount?
    requires c in Do(w, a).calls && d in Do(w, a).calls && c != d && c in w.calls && d in w.calls
    ensures Apart(Do(w, a).calls[c], Do(w, a).calls[d])
  {
    assert Apart(w.calls[c], w.calls[d]) && Apart(w.calls[d], w.calls[c]);
    if !a.Start? {
      if c == a.call {
        MoveKeepsApart(w, a, d);
      } else if d == a.call {
        MoveKeepsApart(w, a, c);
      }
    }
  }

  lemma NewCallIsApart(w: World, a: Action, d: nat)
    requires Enabled(w, a) && a.Start? && d in w.calls
    ensures Apart(Do(w, a).calls[a.call], w.calls[d]) && Apart(w.calls[d], Do(w, a).calls[a.call])
  {
  }

  lemma StepKeepsExclusive(w: World, a: Action)
    requires Inv(w) && Enabled(w, a)
    ensures Exclusive(Do(w, a))
  {
    if !a.Confirm? && !a.OpenAccount? {
      var w' := Do(w, a);
      forall c, d | c in w'.calls && d in w'.calls && c != d ensures Apart(w'.calls[c], w'.calls[d]) {
        if c in w.calls && d in w.calls {
          PairStaysApart(w, a, c, d);
        } else {
          NewCallIsApart(w, a, if c in w.calls then c else d);
        }
      }
    }
  }

  lemma StepKeepsRows(w: World, a: Action)
    requires Inv(w) && Enabled(w, a)
    ensures RowsOk(Do(w, a).db) && NoOverdraft(Do(w, a).db)
  {
    match a
    case Commit(c) =>
      assert CallOk(w.db, w.calls[c]);
      CommitIsTransaction(w, c, Committing(w, c).handlers);
      A.StepKeepsRowsInv(Committing(w, c), CommitStep(w.calls[c]));
    case Confirm(o) => MarkedKeepsRowsOk(w.db, o.id, CONFIRMED);
    case OpenAccount(account) => OpenKeepsRowsOk(w.db, account);
    case _ =>
  }

  lemma StepKeepsInv(w: World, a: Action)
    requires Inv(w) && Enabled(w, a)
    ensures Inv(Do(w, a))
  {
    StepKeepsCalls(w, a);
    StepKeepsExclusive(w, a);
    StepKeepsRows(w, a);
  }

  lemma {:induction false} RunKeepsInv(w: World, run: seq<Action>)
    requires Inv(w) && Legal(w, run)
    ensures Inv(After(w, run))
    decreases |run|
  {
    if run != [] {
      StepKeepsInv(w, run[0]);
      RunKeepsInv(Do(w, run[0]), run[1..]);
    }
  }

  // ----- every run is a run of the one-step machine -----------------------------------------

  lemma SizeChange(before: set<nat>, after: set<nat>, c: nat)
    requires forall d :: d != c ==> (d in before <==> d in after)
    ensures |after| == |before| - (if c in before then 1 else 0) + if c in after then 1 else 0
  {
    var others := before - {c};
    assert before == if c in before then others + {c} else others;
    assert after == if c in after then others + {c} else others;
  }

  lemma HandlingMoves(calls: map<nat, Call>, c: nat, moved: Call, o: A.Outcome)
    ensures |Handling(calls[c := moved], o)| ==
            |Handling(calls, o)| - (if c in Handling(calls, o) then 1 else 0)
            + (if moved.kind == Refund(o) && !moved.phase.Done? then 1 else 0)
  {
    SizeChange(Handling(calls, o), Handling(calls[c := moved], o), c);
  }

  lemma HandlingStarts(calls: map<nat, Call>, c: nat, call: Call, handlers: multiset<A.Outcome>)
    requires Tracks(calls, handlers) && c !in calls && !call.phase.Done?
    ensures Tracks(calls[c := call], if call.kind.Refund? then handlers + multiset{call.kind.outcome} else handlers)
  {
    forall o ensures |Handling(calls[c := call], o)| == |Handling(calls, o)| + if call.kind == Refund(o) then 1 else 0 {
      HandlingMoves(calls, c, call, o);
    }
  }

  lemma HandlingGoesOn(calls: map<nat, Call>, c: nat, moved: Call, handlers: multiset<A.Outcome>)
    requires Tracks(calls, handlers) && c in calls && moved.kind == calls[c].kind
    requires !calls[c].phase.Done? && !moved.phase.Done?
    ensures Tracks(calls[c := moved], handlers)
  {
    forall o ensures |Handling(calls[c := moved], o)| == |Handling(calls, o)| {
      HandlingMoves(calls, c, moved, o);
    }
  }

  lemma HandlingEnds(calls: map<nat, Call>, c: nat, moved: Call, handlers: multiset<A.Outcome>)
    requires Tracks(calls, handlers) && c in calls && moved.kind == calls[c].kind
    requires !calls[c].phase.Done? && moved.phase.Done?
    ensures moved.kind.Refund? ==> moved.kind.outcome in handlers
    ensures Tracks(calls[c := moved], if moved.kind.Refund? then handlers - multiset{moved.kind.outcome} else handlers)
  {
    forall o
      ensures |Handling(calls[c := moved], o)| == |Handling(calls, o)| - if moved.kind == Refund(o) then 1 else 0
    {
      HandlingMoves(calls, c, moved, o);
    }
    if moved.kind.Refund? {
      assert c in Handling(calls, moved.kind.outcome);
    }
  }

  lemma OneBankStep(b: A.Bank, x: A.Action)
    requires A.Enabled(b, x)
    ensures A.Legal(b, [x]) && A.After(b, [x]) == A.Do(b, x)
  {
    A.LegalCons(b, x, []);
  }

  lemma StartRefines(w: World, b: A.Bank, a: Action)
    requires Enabled(w, a) && Refines(w, b) && a.Start?
    ensures A.Legal(b, BankSteps(w, a)) && Refines(Do(w, a), A.After(b, BankSteps(w, a)))
  {
    HandlingStarts(w.calls, a.call, Do(w, a).calls[a.call], b.handlers);
    if a.kind.Refund? {
      OneBankStep(b, A.Read(a.kind.outcome));
    }
  }

  lemma CommitRefines(w: World, b: A.Bank, c: nat)
    requires Inv(w) && Enabled(w, Commit(c)) && Refines(w, b)
    ensures A.Legal(b, BankSteps(w, Commit(c))) && Refines(Do(w, Commit(c)), A.After(b, BankSteps(w, Commit(c))))
  {
    HandlingEnds(w.calls, c, Moved(w, Commit(c)), b.handlers);
    CommitIsTransaction(w, c, b.handlers);
    OneBankStep(b, CommitStep(w.calls[c]));
  }

  lemma ConfirmRefines(w: World, b: A.Bank, o: A.Outcome)
    requires Enabled(w, Confirm(o)) && Refines(w, b)
    ensures A.Legal(b, BankSteps(w, Confirm(o))) && Refines(Do(w, Confirm(o)), A.After(b, BankSteps(w, Confirm(o))))
  {
    if w.db.interbank[o.id].status == DEBITED {
      A.ConfirmationRuns(b, o);
    }
  }

  lemma EndRefines(w: World, b: A.Bank, c: nat, moved: Call)
    requires Refines(w, b) && c in w.calls && moved.kind == w.calls[c].kind && !w.calls[c].phase.Done?
    ensures var steps := EndSteps(w.calls[c], moved);
            A.Legal(b, steps) && Refines(w.(calls := w.calls[c := moved]), A.After(b, steps))
  {
    if moved.phase.Done? {
      HandlingEnds(w.calls, c, moved, b.handlers);
      if moved.kind.Refund? {
        OneBankStep(b, A.Crash(moved.kind.outcome));
      }
    } else {
      HandlingGoesOn(w.calls, c, moved, b.handlers);
    }
  }

  lemma MovedKind(w: World, a: Action)
    requires Enabled(w, a) && !a.Start? && !a.Confirm? && !a.OpenAccount?
    ensures !w.calls[a.call].phase.Done?
    ensures Moved(w, a).kind == w.calls[a.call].kind && Moved(w, a).id == w.calls[a.call].id
    ensures Moved(w, a).transfer == w.calls[a.call].transfer
  {
  }

  lemma StepRefinesBank(w: World, b: A.Bank, a: Action)
    requires Inv(w) && Enabled(w, a) && Refines(w, b)
    ensures A.Legal(b, BankSteps(w, a)) && Refines(Do(w, a), A.After(b, BankSteps(w, a)))
  {
    match a
    case Start(_, _, _, _) => StartRefines(w, b, a);
    case Commit(c) => CommitRefines(w, b, c);
    case Confirm(o) => ConfirmRefines(w, b, o);
    case OpenAccount(account) => OneBankStep(b, A.OpenAccount(account));
    case _ =>
      MovedKind(w, a);
      EndRefines(w, b, a.call, Moved(w, a));
  }

  /** Every interleaving of statements, rollbacks included, is a run of whole transactions: same
      tables at the end, and one open handler for every unfinished refund. */
  lemma {:induction false} RunRefinesBank(w: World, b: A.Bank, run: seq<Action>)
    requires Inv(w) && Legal(w, run) && Refines(w, b)
    ensures A.Legal(b, BankRun(w, run)) && Refines(After(w, run), A.After(b, BankRun(w, run)))
    decreases |run|
  {
    if run != [] {
      var steps := BankSteps(w, run[0]);
      StepKeepsInv(w, run[0]);
      StepRefinesBank(w, b, run[0]);
      RunRefinesBank(Do(w, run[0]), A.After(b, steps), run[1..]);
      A.LegalConcat(b, steps, BankRun(Do(w, run[0]), run[1..]));
    }
  }

  lemma StepSparesSuspense(w: World, a: Action)
    requires Enabled(w, a) && CallsSpareSuspense(w) && (a.Start? ==> SparesSuspense(a.kind, a.transfer))
    ensures CallsSpareSuspense(Do(w, a)) && A.SuspenseLeftAlone(BankSteps(w, a))
  {
  }

  lemma {:induction false} BankRunSparesSuspense(w: World, run: seq<Action>)
    requires Legal(w, run) && CallsSpareSuspense(w) && RunSparesSuspense(run)
    ensures A.SuspenseLeftAlone(BankRun(w, run))
    decreases |run|
  {
    if run != [] {
      StepSparesSuspense(w, run[0]);
      assert forall i :: 0 <= i < |run[1..]| ==> run[1..][i] == run[i + 1];
      BankRunSparesSuspense(Do(w, run[0]), run[1..]);
    }
  }

  lemma StepSparesKeys(w: World, a: Action)
    requires Enabled(w, a) && CallsSpareKeys(w) && (a.Start? ==> SparesKeys(a.kind, a.transfer))
    ensures CallsSpareKeys(Do(w, a)) && A.KeysSpared(BankSteps(w, a))
  {
  }

  lemma {:induction false} BankRunSparesKeys(w: World, run: seq<Action>)
    requires Legal(w, run) && CallsSpareKeys(w) && RunSparesKeys(run)
    ensures A.KeysSpared(BankRun(w, run))
    decreases |run|
  {
    if run != [] {
      StepSparesKeys(w, run[0]);
      assert forall i :: 0 <= i < |run[1..]| ==> run[1..][i] == run[i + 1];
      BankRunSparesKeys(Do(w, run[0]), run[1..]);
    }
  }

  /** Every refund starts on an outcome that agrees with `confirmed`, and so does every
      confirmation. */
  predicate OutcomesAgree(run: seq<Action>, confirmed: set<Uuid>) {
    forall i :: 0 <= i < |run| ==> OutcomeAgrees(run[i], confirmed)
  }

  predicate OutcomeAgrees(a: Action, confirmed: set<Uuid>) {
    && (a.Start? && a.kind.Refund? ==> a.kind.outcome.id !in confirmed)
    && (a.Confirm? ==> a.outcome.id in confirmed)
  }

  lemma {:induction false} BankRunAgrees(w: World, run: seq<Action>, confirmed: set<Uuid>)
    requires Legal(w, run) && OutcomesAgree(run, confirmed)
    ensures A.Agreeing(BankRun(w, run), confirmed)
    decreases |run|
  {
    if run != [] {
      assert OutcomeAgrees(run[0], confirmed);
      assert A.Agreeing(BankSteps(w, run[0]), confirmed);
      assert forall i :: 0 <= i < |run[1..]| ==> run[1..][i] == run[i + 1];
      BankRunAgrees(Do(w, run[0]), run[1..], confirmed);
    }
  }

  // ----- what every run guarantees ----------------------------------------------------------

  /** Under any interleaving of statements, failures included, no checked account is ever
      overdrawn. */
  lemma NoOverdraftUnderConcurrency(run: seq<Action>, account: Uuid)
    requires Legal(START, run)
    ensures account != SUSPENSE && account != DEV_TREASURY ==> BalanceOf(After(START, run).db.ledger, account) >= 0
  {
    StartInv();
    RunKeepsInv(START, run);
  }

  /** The assumption about the key space, at the level of calls. */
  predicate SparesKeys(kind: Kind, t: Transfer) {
    kind.Local? || kind.Interbank? ==> !t.key.CompensationKey?
  }

  predicate CallsSpareKeys(w: World) {
    forall c :: c in w.calls ==> SparesKeys(w.calls[c].kind, w.calls[c].transfer)
  }

  predicate RunSparesKeys(run: seq<Action>) {
    forall i :: 0 <= i < |run| && run[i].Start? ==> SparesKeys(run[i].kind, run[i].transfer)
  }

  /** The assumption about the suspense account, at the level of calls. */
  predicate SparesSuspense(kind: Kind, t: Transfer) {
    && (kind.Local? ==> t.payer != SUSPENSE && t.payee != SUSPENSE)
    && (kind.Seed? ==> t.payee != SUSPENSE)
  }

  predicate CallsSpareSuspense(w: World) {
    forall c :: c in w.calls ==> SparesSuspense(w.calls[c].kind, w.calls[c].transfer)
  }

  predicate RunSparesSuspense(run: seq<Action>) {
    forall i :: 0 <= i < |run| && run[i].Start? ==> SparesSuspense(run[i].kind, run[i].transfer)
  }

  /** What the assumptions about a run ask of its callers, in plain terms. */
  lemma AssumptionsMean(run: seq<Action>, confirmed: set<Uuid>)
    ensures RunSparesKeys(run) <==>
            forall i :: 0 <= i < |run| && run[i].Start? && (run[i].kind.Local? || run[i].kind.Interbank?) ==>
              !run[i].transfer.key.CompensationKey?
    ensures RunSparesSuspense(run) <==>
            && (forall i :: 0 <= i < |run| && run[i].Start? && run[i].kind.Local? ==>
                  run[i].transfer.payer != SUSPENSE && run[i].transfer.payee != SUSPENSE)
            && (forall i :: 0 <= i < |run| && run[i].Start? && run[i].kind.Seed? ==>
                  run[i].transfer.payee != SUSPENSE)
    ensures OutcomesAgree(run, confirmed) <==>
            && (forall i :: 0 <= i < |run| && run[i].Start? && run[i].kind.Refund? ==>
                  run[i].kind.outcome.id !in confirmed)
            && (forall i :: 0 <= i < |run| && run[i].Confirm? ==> run[i].outcome.id in confirmed)
  {
    if OutcomesAgree(run, confirmed) {
      assert forall i :: 0 <= i < |run| ==> OutcomeAgrees(run[i], confirmed);
    }
  }

  /** An interbank row, its transfer to suspense, its two entries and its one outbox row, with
      one id, bank, reference and amount, all exist or none does. Whether another transfer pays
      into suspense is up to the callers. */
  lemma InterbankRowsCommitTogether(run: seq<Action>, id: Uuid)
    requires Legal(START, run)
    ensures var db := After(START, run).db;
            if id in db.interbank then
              && id in db.transfers
              && var t, b := db.transfers[id], db.interbank[id];
                 && t.payee == SUSPENSE
                 && EntriesFor(db.ledger, id) == Movement(id, t.payer, SUSPENSE, t.amount)
                 && RowsFor(db.outbox, id) ==
                    [Row(id, HubModel.Request(id, BANK_ID, b.payeeBank, b.payeeRef, t.amount))]
            else
              && RowsFor(db.outbox, id) == []
              && (RunSparesSuspense(run) && id in db.transfers ==> db.transfers[id].payee != SUSPENSE)
  {
    StartInv();
    RunKeepsInv(START, run);
    assert RowOk(After(START, run).db, id);
    if RunSparesSuspense(run) {
      RunRefinesBank(START, A.START, run);
      BankRunSparesSuspense(START, run);
      A.OnlySagaUsesSuspense(BankRun(START, run), id);
    }
  }

  /** Statement by statement, and whatever accounts and keys callers name: refunds and statuses
      stay together if and only if every commit is sound, and the suspense balance is accounted
      for to the cent. */
  lemma InterleavedRefundsIff(run: seq<Action>)
    requires Legal(START, run)
    ensures A.Legal(A.START, BankRun(START, run))
    ensures var db := After(START, run).db;
            && (RefundsOk(db) <==> A.SoundRun(A.START, BankRun(START, run)))
            && BalanceOf(db.ledger, SUSPENSE) ==
               Total(ParkedAmounts(db)) + Total(StrandedAmounts(db)) + Total(OtherFlows(db))
  {
    StartInv();
    RunRefinesBank(START, A.START, run);
    A.RunKeepsRefundsIff(A.START, BankRun(START, run));
    A.SuspenseIdentity(BankRun(START, run));
  }

  /** When outcomes agree and clients spare the compensation keys, refunds happen exactly once per
      transfer; with suspense left alone its balance is what is not compensated. */
  lemma InterleavedRefundsHappenOnce(run: seq<Action>, confirmed: set<Uuid>, id: Uuid)
    requires Legal(START, run) && id in After(START, run).db.interbank
    requires OutcomesAgree(run, confirmed) && RunSparesKeys(run)
    ensures var db := After(START, run).db;
            && (db.interbank[id].status == COMPENSATED <==> exists c :: IsRefundOf(db, c, id))
            && (forall c, d :: IsRefundOf(db, c, id) && IsRefundOf(db, d, id) ==> c == d)
            && (RunSparesSuspense(run) ==> BalanceOf(db.ledger, SUSPENSE) == Total(ParkedAmounts(db)))
  {
    RunRefinesBank(START, A.START, run);
    BankRunAgrees(START, run, confirmed);
    BankRunSparesKeys(START, run);
    A.AgreeingRunCompensatesExactlyOnce(BankRun(START, run), confirmed, id);
    if RunSparesSuspense(run) {
      BankRunSparesSuspense(START, run);
      A.SuspenseIdentity(BankRun(START, run));
    }
  }

  /** A call's answer is the committed transfer of its key, and for a client call one with its own
      parameters; so two successful client calls with one key asked for the same thing and got
      the same transfer, a call with other parameters never succeeds, a failed call leaves
      nothing behind, and the "vanished" error does not occur. */
  lemma IdempotentExecution(run: seq<Action>, c: nat, d: nat)
    requires Legal(START, run)
    requires c in After(START, run).calls && d in After(START, run).calls
    ensures var w := After(START, run);
            var one, other := w.calls[c], w.calls[d];
            && (one.phase.Done? && one.phase.result.Ok? ==>
                  && one.transfer.key in w.db.keys && one.phase.result.value == w.db.keys[one.transfer.key]
                  && (!one.kind.Refund? ==>
                        var id := one.phase.result.value;
                        && id in w.db.transfers && w.db.transfers[id] == one.transfer
                        && (one.kind.Interbank? ==>
                              && id in w.db.interbank
                              && w.db.interbank[id].payeeBank == one.kind.payeeBank
                              && w.db.interbank[id].payeeRef == one.kind.payeeRef)))
            && (one.phase.Done? && one.phase.result.Ok? && other.phase.Done? && other.phase.result.Ok?
                && one.transfer.key == other.transfer.key ==>
                  && one.phase.result == other.phase.result
                  && (!one.kind.Refund? && !other.kind.Refund? ==> one.transfer == other.transfer))
            && (forall i, j :: i in w.db.transfers && j in w.db.transfers && i != j ==>
                  w.db.transfers[i].key != w.db.transfers[j].key)
            && (one.phase.Done? && one.phase.result.Err? ==>
                  one.id !in w.db.transfers && one.phase.result.error != Vanished)
  {
    StartInv();
    RunKeepsInv(START, run);
    var w := After(START, run);
    assert CallOk(w.db, w.calls[c]) && CallOk(w.db, w.calls[d]);
    forall i, j | i in w.db.transfers && j in w.db.transfers && i != j
      ensures w.db.transfers[i].key != w.db.transfers[j].key
    {
      if w.db.transfers[i].key == w.db.transfers[j].key {
        KeysAreUnique(w.db, i, j);
      }
    }
  }

  /** A call that failed, wherever it stopped, has left no row, no entry, no event and no key
      behind and holds no lock; its key is free again unless another call took it. */
  lemma FailureLeavesNoTrace(run: seq<Action>, c: nat)
    requires Legal(START, run) && c in After(START, run).calls
    requires var phase := After(START, run).calls[c].phase; phase.Done? && phase.result.Err?
    ensures var w := After(START, run);
            var id := w.calls[c].id;
            && id !in w.db.transfers && id !in w.db.interbank
            && EntriesFor(w.db.ledger, id) == [] && RowsFor(w.db.outbox, id) == []
            && (forall key :: key in w.db.keys ==> w.db.keys[key] != id)
            && w.calls[c].held == {} && w.calls[c].writes == NO_WRITES && !HoldsKey(w.calls[c])
  {
    StartInv();
    RunKeepsInv(START, run);
    var w := After(START, run);
    assert CallOk(w.db, w.calls[c]);
    assert RowOk(w.db, w.calls[c].id);
    forall key | key in w.db.keys ensures w.db.keys[key] != w.calls[c].id {
      assert KeyOk(w.db, key);
    }
  }

  // ----- deadlock freedom -------------------------------------------------------------------

  /** The next statement of a call. */
  function Next(call: Call, c: nat): Action
    requires !call.phase.Done?
  {
    match call.phase
    case Started => Lookup(c)
    case Locking(next) => if next < |LockOrder(call)| then Lock(c) else Insert(c)
    case Inserted => Check(c)
    case Affordable => Append(c)
    case Appended => if call.kind.Interbank? then Enqueue(c) else Commit(c)
    case Enqueued | Skipped => Commit(c)
    case Lost => LookupWinner(c)
  }

  predicate Unfinished(w: World, c: nat) {
    c in w.calls && !w.calls[c].phase.Done?
  }

  predicate CanMove(w: World, c: nat)
    requires Unfinished(w, c)
  {
    Enabled(w, Next(w.calls[c], c))
  }

  /** The only things an unfinished call ever waits for: an account another call has locked, or a
      key another call has inserted and not committed. */
  lemma WaitsOnlyForHolders(w: World, c: nat)
    requires Inv(w) && Unfinished(w, c)
    ensures CallOk(w.db, w.calls[c])
    ensures var call := w.calls[c];
            CanMove(w, c) <==>
            && (call.phase.Locking? && call.phase.next < |LockOrder(call)| ==>
                  forall d :: d in w.calls && d != c ==> LockOrder(call)[call.phase.next] !in w.calls[d].held)
            && (call.phase.Locking? && call.phase.next == |LockOrder(call)| ==>
                  forall d :: d in w.calls && d != c && w.calls[d].transfer.key == call.transfer.key ==>
                    !(w.calls[d].phase.Inserted? || w.calls[d].phase.Affordable? || w.calls[d].phase.Appended?
                      || w.calls[d].phase.Enqueued?))
  {
    assert CallOk(w.db, w.calls[c]);
  }

  /** Calls overlap freely: whatever others are in the middle of, a client can start one with any
      valid parameters, any number of refunds of one DEBITED transfer can start, and any
      unfinished call can fail, wherever it is. */
  lemma CallsOverlapFreely(w: World, c: nat, kind: Kind, id: Uuid, t: Transfer)
    requires Inv(w)
    ensures (kind.Local? || (kind.Interbank? && t.payee == SUSPENSE))
            && 0 < t.amount <= 9007199254740991 && t.payer != t.payee
            && c !in w.calls && id !in w.db.transfers && (forall d :: d in w.calls ==> w.calls[d].id != id) ==>
              && Enabled(w, Start(c, kind, id, t))
              && Do(w, Start(c, kind, id, t)) == World(w.db, w.calls[c := Call(kind, id, t, {}, NO_WRITES, Started)])
    ensures kind.Refund? && kind.outcome.verdict != HubModel.CONFIRMED
            && kind.outcome.id in w.db.interbank && w.db.interbank[kind.outcome.id].status == DEBITED
            && c !in w.calls && id !in w.db.transfers && (forall d :: d in w.calls ==> w.calls[d].id != id) ==>
              kind.outcome.id in w.db.transfers && Enabled(w, Start(c, kind, id, Reversal(w.db, kind.outcome.id)))
    ensures c in w.calls && !w.calls[c].phase.Done? ==>
              && Enabled(w, Fail(c)) && Do(w, Fail(c)).db == w.db
              && Do(w, Fail(c)).calls == w.calls[c := w.calls[c].(held := {}, writes := NO_WRITES,
                                                                  phase := Done(Err(Database)))]
  {
    if kind.Refund? {
      assert RowOk(w.db, kind.outcome.id);
    }
  }

  predicate WaitsForAccount(w: World, c: nat) {
    Unfinished(w, c) && Awaits(w.calls[c])
  }

  lemma OutsideLockingCanMove(w: World, c: nat)
    requires Unfinished(w, c) && CallOk(w.db, w.calls[c]) && !w.calls[c].phase.Locking?
    ensures CanMove(w, c)
  {
  }

  /** A call waits only for an account lock, or for a key held by a call that can move. */
  lemma OnlyLocksAndKeysBlock(w: World, c: nat) returns (d: nat)
    requires CallsOk(w) && Unfinished(w, c) && !CanMove(w, c)
    ensures WaitsForAccount(w, c) || (Unfinished(w, d) && CanMove(w, d))
  {
    d := c;
    assert CallOk(w.db, w.calls[c]);
    if !w.calls[c].phase.Locking? {
      OutsideLockingCanMove(w, c);
    } else if !Awaits(w.calls[c]) {
      d :| d in w.calls && d != c && HoldsKey(w.calls[d]) && w.calls[d].transfer.key == w.calls[c].transfer.key;
      assert CallOk(w.db, w.calls[d]);
      OutsideLockingCanMove(w, d);
    }
  }

  lemma {:induction false} LocksBelow(order: seq<Uuid>, n: nat, bound: Uuid, account: Uuid)
    requires n <= |order| && account in Locks(order, n)
    requires forall i :: 0 <= i < n ==> order[i] < bound
    ensures account < bound
  {
    if account in Locks(order, n - 1) {
      LocksBelow(order, n - 1, bound, account);
    }
  }

  /** A call that waits for an account holds only smaller ones. */
  lemma HeldBelowAwaited(call: Call, account: Uuid)
    requires HeldOk(call) && WellFormed(call.kind, call.id, call.transfer) && Awaits(call) && account in call.held
    ensures account < Awaited(call)
  {
    LockOrderSorted(call);
    LocksBelow(LockOrder(call), call.phase.next, Awaited(call), account);
  }

  /** The holder of the account a call waits for has moved on, or waits for a larger account. */
  lemma HolderIsAhead(w: World, c: nat) returns (d: nat)
    requires CallsOk(w) && WaitsForAccount(w, c) && !CanMove(w, c)
    ensures Unfinished(w, d)
    ensures WaitsForAccount(w, d) ==> Awaited(w.calls[c]) < Awaited(w.calls[d])
  {
    d :| d in w.calls && d != c && Awaited(w.calls[c]) in w.calls[d].held;
    assert CallOk(w.db, w.calls[d]);
    if WaitsForAccount(w, d) {
      HeldBelowAwaited(w.calls[d], Awaited(w.calls[c]));
    }
  }

  /** Following holders reaches a call that can move: each wait is for a larger account, and
      only finitely many calls wait. `above` are the waiting calls not yet ruled out. */
  lemma {:induction false} FollowHolders(w: World, c: nat, above: set<nat>) returns (d: nat)
    requires CallsOk(w) && WaitsForAccount(w, c)
    requires forall e :: WaitsForAccount(w, e) && Awaited(w.calls[c]) <= Awaited(w.calls[e]) ==> e in above
    ensures Unfinished(w, d) && CanMove(w, d)
    decreases |above|
  {
    if CanMove(w, c) {
      d := c;
    } else {
      var holder := HolderIsAhead(w, c);
      if WaitsForAccount(w, holder) {
        d := FollowHolders(w, holder, above - {c});
      } else if CanMove(w, holder) {
        d := holder;
      } else {
        d := OnlyLocksAndKeysBlock(w, holder);
      }
    }
  }

  /** While any call is unfinished, some call can execute its next statement. */
  lemma SomeCallCanMove(w: World, c: nat) returns (d: nat)
    requires CallsOk(w) && Unfinished(w, c)
    ensures Unfinished(w, d) && CanMove(w, d)
  {
    if CanMove(w, c) {
      d := c;
    } else {
      d := OnlyLocksAndKeysBlock(w, c);
      if WaitsForAccount(w, c) {
        d := FollowHolders(w, c, w.calls.Keys);
      }
    }
  }

  /** How many statements a call has left at most. */
  function Remaining(call: Call): nat {
    match call.phase
    case Started => 10
    case Locking(next) => if next < 3 then 9 - next else 6
    case Inserted => 5
    case Affordable => 4
    case Appended => 3
    case Enqueued | Skipped => 2
    case Lost => 1
    case Done(_) => 0
  }

  function Todo(calls: map<nat, Call>): map<nat, int> {
    map c | c in calls :: Remaining(calls[c])
  }

  ghost function Work(calls: map<nat, Call>): int {
    Total(Todo(calls))
  }

  lemma NextReducesRemaining(w: World, c: nat)
    requires Unfinished(w, c) && CallOk(w.db, w.calls[c]) && CanMove(w, c)
    ensures var a := Next(w.calls[c], c);
            Do(w, a).calls == w.calls[c := Moved(w, a)] && Remaining(Moved(w, a)) < Remaining(w.calls[c])
  {
  }

  lemma WorkUpdate(calls: map<nat, Call>, c: nat, moved: Call)
    requires c in calls
    ensures Work(calls[c := moved]) == Work(calls) - Remaining(calls[c]) + Remaining(moved)
    ensures 0 <= Work(calls[c := moved])
  {
    TotalUpdate(Todo(calls), c, Remaining(moved));
    assert Todo(calls[c := moved]) == Todo(calls)[c := Remaining(moved)];
    TotalNonNegative(Todo(calls[c := moved]));
  }

  lemma NextReducesWork(w: World, c: nat)
    requires Unfinished(w, c) && CallOk(w.db, w.calls[c]) && CanMove(w, c)
    ensures var w' := Do(w, Next(w.calls[c], c));
            w'.calls.Keys == w.calls.Keys && 0 <= Work(w'.calls) < Work(w.calls)
  {
    NextReducesRemaining(w, c);
    WorkUpdate(w.calls, c, Moved(w, Next(w.calls[c], c)));
  }

  lemma NextIsOwnStatement(call: Call, c: nat)
    requires !call.phase.Done?
    ensures var a := Next(call, c); !a.Fail? && !a.Start?
  {
  }

  lemma AdvanceBy(w: World, d: nat)
    requires Inv(w) && Unfinished(w, d) && CanMove(w, d)
    ensures var w' := Do(w, Next(w.calls[d], d));
            Inv(w') && w'.calls.Keys == w.calls.Keys && 0 <= Work(w'.calls) < Work(w.calls)
  {
    NextReducesWork(w, d);
    StepKeepsInv(w, Next(w.calls[d], d));
  }

  lemma Advance(w: World, c: nat) returns (a: Action)
    requires Inv(w) && Unfinished(w, c)
    ensures Enabled(w, a) && !a.Fail? && !a.Start? && Inv(Do(w, a))
    ensures Do(w, a).calls.Keys == w.calls.Keys && 0 <= Work(Do(w, a).calls) < Work(w.calls)
  {
    var d := SomeCallCanMove(w, c);
    a := Next(w.calls[d], d);
    NextIsOwnStatement(w.calls[d], d);
    AdvanceBy(w, d);
  }

  predicate AllDone(w: World) {
    forall c :: c in w.calls ==> w.calls[c].phase.Done?
  }

  predicate NothingFails(run: seq<Action>) {
    forall i :: 0 <= i < |run| ==> !run[i].Fail? && !run[i].Start?
  }

  lemma RunCons(w: World, a: Action, rest: seq<Action>)
    requires Enabled(w, a) && Legal(Do(w, a), rest) && !a.Fail? && !a.Start? && NothingFails(rest)
    ensures Legal(w, [a] + rest) && After(w, [a] + rest) == After(Do(w, a), rest) && NothingFails([a] + rest)
  {
    var run := [a] + rest;
    assert run[1..] == rest;
    assert forall i :: 0 < i < |run| ==> run[i] == rest[i - 1];
  }

  /** From every reachable state all calls can run to their end without any of them being
      rolled back to break a wait. */
  lemma {:induction false} EveryCallCanFinish(w: World) returns (run: seq<Action>)
    requires Inv(w)
    ensures Legal(w, run) && NothingFails(run) && forall i :: 0 <= i < |run| ==> !run[i].Fail? && !run[i].Start?
    ensures After(w, run).calls.Keys == w.calls.Keys
    ensures forall c :: c in After(w, run).calls ==> After(w, run).calls[c].phase.Done?
    decreases Work(w.calls)
  {
    if AllDone(w) {
      run := [];
    } else {
      var c :| c in w.calls && !w.calls[c].phase.Done?;
      var a := Advance(w, c);
      var rest := EveryCallCanFinish(Do(w, a));
      RunCons(w, a, rest);
      run := [a] + rest;
    }
  }
}
