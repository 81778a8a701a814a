/**
 What a call of the interleaved machine answers when it runs alone, statement by statement: the
 service's answer, and the service's tables. And what a repeated call answers in any later state.
 */
module CallsAlone {
  import opened Prelude
  import opened Ledger
  import opened Outbox
  import opened BankAModel
  import HubModel
  import A = BankARuns
  import S = BankAService
  import T = TransferConcurrency

  function Destination(kind: T.Kind): Option<(BankId, string)> {
    if kind.Interbank? then Some((kind.payeeBank, kind.payeeRef)) else None
  }

  predicate IsClient(kind: T.Kind) {
    kind.Local? || kind.Interbank?
  }

  // ----- the answer that is due, from each phase ----------------------------------------------

  function DueWriting(call: T.Call): Result<Uuid, Error> {
    if call.kind.Interbank? && !ValidRef(call.kind.payeeRef) then Err(Database) else Ok(call.id)
  }

  function DueChecking(db: BankDb, call: T.Call): Result<Uuid, Error> {
    var balance := BalanceOf(db.ledger, call.transfer.payer);
    if !IsSafeInteger(balance) then Err(InvalidAmount)
    else if balance < call.transfer.amount then Err(InsufficientFunds)
    else DueWriting(call)
  }

  function DueTaken(db: BankDb, call: T.Call): Result<Uuid, Error>
    requires call.transfer.key in db.keys
  {
    match call.kind
    case Refund(_) => Ok(db.keys[call.transfer.key])
    case Seed => Err(Database)
    case _ => Replayed(db, call.transfer, Destination(call.kind))
  }

  function DueLocked(db: BankDb, call: T.Call): Result<Uuid, Error> {
    if !ValidKey(call.transfer.key) then Err(Database)
    else if call.transfer.key in db.keys then DueTaken(db, call)
    else if call.transfer.payer !in db.accounts || call.transfer.payee !in db.accounts then Err(Database)
    else if IsClient(call.kind) then DueChecking(db, call)
    else Ok(call.id)
  }

  function DueLocking(db: BankDb, call: T.Call, next: nat): Result<Uuid, Error>
    requires next <= |T.LockOrder(call)|
  {
    var missing := S.FirstMissing(db.accounts, T.LockOrder(call)[next..]);
    if missing.Some? then Err(AccountNotFound(missing.value)) else DueLocked(db, call)
  }

  function Due(db: BankDb, call: T.Call): Result<Uuid, Error>
    requires T.CallOk(db, call)
  {
    match call.phase
    case Started => if call.transfer.key in db.keys then DueTaken(db, call) else DueLocking(db, call, 0)
    case Locking(next) => DueLocking(db, call, next)
    case Inserted => DueChecking(db, call)
    case Affordable | Appended => DueWriting(call)
    case Enqueued => Ok(call.id)
    case Skipped | Lost => DueTaken(db, call)
    case Done(result) => result
  }

  /** The tables a call leaves when it ends with this answer. */
  function Final(db: BankDb, call: T.Call, result: Result<Uuid, Error>): BankDb {
    if result.Err? then db
    else
      match call.kind
      case Refund(o) => if o.id in db.transfers then Compensated(db, o.id, call.id) else db
      case Interbank(bank, ref) =>
        if result == Ok(call.id) then Debited(db, call.id, call.transfer, bank, ref) else db
      case _ => if result == Ok(call.id) then Booked(db, call.id, call.transfer) else db
  }

  /** Every other call has ended. */
  predicate Quiet(w: T.World, c: nat) {
    forall d :: d in w.calls && d != c ==> w.calls[d].phase.Done?
  }

  /** A call's own statements, none of them a failure. */
  predicate OwnStatements(run: seq<T.Action>, c: nat) {
    forall i :: 0 <= i < |run| ==> OwnStatement(run[i], c)
  }

  predicate OwnStatement(a: T.Action, c: nat) {
    !a.Start? && !a.Fail? && !a.Confirm? && !a.OpenAccount? && a.call == c
  }

  // ----- one statement ----------------------------------------------------------------------

  lemma AloneCanMove(w: T.World, c: nat)
    requires T.CallsOk(w) && T.Unfinished(w, c) && Quiet(w, c)
    ensures T.CanMove(w, c)
  {
    forall d | d in w.calls && d != c ensures w.calls[d].held == {} && !T.HoldsKey(w.calls[d]) {
      assert T.CallOk(w.db, w.calls[d]);
    }
    assert T.CallOk(w.db, w.calls[c]);
  }

  /** The accounts a client transfer books are those it has locked, and suspense. */
  lemma LockedMeansPresent(db: BankDb, call: T.Call)
    requires RowsOk(db) && IsClient(call.kind) && T.WellFormed(call.kind, call.id, call.transfer)
    requires S.FirstMissing(db.accounts, T.LockOrder(call)) == None
    ensures call.transfer.payer in db.accounts && call.transfer.payee in db.accounts
  {
    S.AllPresent(db.accounts, T.LockOrder(call));
    assert call.transfer.payer in T.LockOrder(call);
    assert call.kind.Local? ==> call.transfer.payee in T.LockOrder(call);
  }

  lemma LookupKeepsDue(w: T.World, c: nat)
    requires T.Inv(w) && T.Enabled(w, T.Lookup(c))
    ensures T.CallOk(w.db, T.Moved(w, T.Lookup(c)))
    ensures Due(w.db, T.Moved(w, T.Lookup(c))) == Due(w.db, w.calls[c])
  {
    T.MoveKeepsCall(w, T.Lookup(c));
    assert T.CallOk(w.db, w.calls[c]);
    var call, moved := w.calls[c], T.Moved(w, T.Lookup(c));
    assert T.LockOrder(moved) == T.LockOrder(call);
  }

  lemma LockKeepsDue(w: T.World, c: nat)
    requires T.Inv(w) && T.Enabled(w, T.Lock(c))
    ensures T.CallOk(w.db, T.Moved(w, T.Lock(c)))
    ensures Due(w.db, T.Moved(w, T.Lock(c))) == Due(w.db, w.calls[c])
  {
    T.MoveKeepsCall(w, T.Lock(c));
    var call, moved := w.calls[c], T.Moved(w, T.Lock(c));
    assert T.CallOk(w.db, call);
    var order, next := T.LockOrder(call), call.phase.next;
    assert order[next..][1..] == order[next + 1..] && order[next..][0] == order[next];
    assert moved.phase.Locking? ==> T.LockOrder(moved) == order;
  }

  lemma InsertKeepsDue(w: T.World, c: nat)
    requires T.Inv(w) && T.Enabled(w, T.Insert(c))
    ensures T.CallOk(w.db, T.Moved(w, T.Insert(c)))
    ensures Due(w.db, T.Moved(w, T.Insert(c))) == Due(w.db, w.calls[c])
  {
    T.MoveKeepsCall(w, T.Insert(c));
    var call := w.calls[c];
    assert T.CallOk(w.db, call);
    assert T.LockOrder(call)[call.phase.next..] == [];
  }

  lemma WriteKeepsDue(w: T.World, a: T.Action)
    requires T.Inv(w) && T.Enabled(w, a) && (a.Check? || a.Append? || a.Enqueue? || a.LookupWinner?)
    ensures T.CallOk(w.db, T.Moved(w, a))
    ensures Due(w.db, T.Moved(w, a)) == Due(w.db, w.calls[a.call])
  {
    T.MoveKeepsCall(w, a);
    assert T.CallOk(w.db, w.calls[a.call]);
  }

  lemma CommitIsDue(w: T.World, c: nat)
    requires T.Inv(w) && T.Enabled(w, T.Commit(c))
    ensures T.CallOk(w.db, w.calls[c])
    ensures T.Moved(w, T.Commit(c)).phase == T.Done(Due(w.db, w.calls[c]))
    ensures T.Do(w, T.Commit(c)).db == Final(w.db, w.calls[c], Due(w.db, w.calls[c]))
  {
    assert T.CallOk(w.db, w.calls[c]);
    T.MergeIsTransaction(w.db, w.calls[c]);
  }

  lemma StatementFrame(w: T.World, a: T.Action, c: nat)
    requires OwnStatement(a, c) && T.Enabled(w, a) && !a.Commit?
    ensures T.Do(w, a) == w.(calls := w.calls[c := T.Moved(w, a)])
    ensures var call, moved := w.calls[c], T.Moved(w, a);
            moved.kind == call.kind && moved.id == call.id && moved.transfer == call.transfer
  {
    T.MovedKind(w, a);
  }

  /** A statement that does not commit does not change what is due. */
  lemma StatementKeepsDue(w: T.World, c: nat)
    requires T.Inv(w) && T.Unfinished(w, c) && T.CanMove(w, c) && !T.Next(w.calls[c], c).Commit?
    ensures T.CallOk(w.db, w.calls[c]) && T.CallOk(w.db, T.Moved(w, T.Next(w.calls[c], c)))
    ensures Due(w.db, T.Moved(w, T.Next(w.calls[c], c))) == Due(w.db, w.calls[c])
  {
    var call := w.calls[c];
    assert T.CallOk(w.db, call);
    match call.phase
    case Started => LookupKeepsDue(w, c);
    case Locking(next) => if next < |T.LockOrder(call)| { LockKeepsDue(w, c); } else { InsertKeepsDue(w, c); }
    case Inserted => WriteKeepsDue(w, T.Check(c));
    case Affordable => WriteKeepsDue(w, T.Append(c));
    case Appended => WriteKeepsDue(w, T.Enqueue(c));
    case Lost => WriteKeepsDue(w, T.LookupWinner(c));
    case _ =>
  }

  // ----- the whole call ---------------------------------------------------------------------

  lemma OnlyClientsReplay(w: T.World, c: nat)
    requires T.Unfinished(w, c) && T.CallOk(w.db, w.calls[c]) && T.CanMove(w, c)
    requires !T.Next(w.calls[c], c).Commit? && !IsClient(w.calls[c].kind)
    ensures var phase := T.Moved(w, T.Next(w.calls[c], c)).phase; phase.Done? ==> phase.result.Err?
  {
  }

  /** A call that ends without committing books nothing: it failed, or its answer is an older
      transfer. */
  lemma RepliesBookNothing(w: T.World, c: nat)
    requires T.Inv(w) && T.Unfinished(w, c) && T.CanMove(w, c) && !T.Next(w.calls[c], c).Commit?
    requires T.CallOk(w.db, w.calls[c]) && T.CallOk(w.db, T.Moved(w, T.Next(w.calls[c], c)))
    requires T.Moved(w, T.Next(w.calls[c], c)).phase.Done?
    ensures Final(w.db, w.calls[c], T.Moved(w, T.Next(w.calls[c], c)).phase.result) == w.db
  {
    var call, moved := w.calls[c], T.Moved(w, T.Next(w.calls[c], c));
    NextIsOwn(call, c);
    T.MovedKind(w, T.Next(call, c));
    if !IsClient(call.kind) {
      OnlyClientsReplay(w, c);
    } else if moved.phase.result.Ok? {
      assert T.Answers(w.db, moved, moved.phase.result.value);
      assert KeyOk(w.db, call.transfer.key);
    }
  }

  lemma NextIsOwn(call: T.Call, c: nat)
    requires !call.phase.Done?
    ensures OwnStatement(T.Next(call, c), c)
  {
  }

  lemma LegalCons(w: T.World, a: T.Action, rest: seq<T.Action>)
    requires T.Enabled(w, a) && T.Legal(T.Do(w, a), rest)
    ensures T.Legal(w, [a] + rest) && T.After(w, [a] + rest) == T.After(T.Do(w, a), rest)
  {
    assert ([a] + rest)[1..] == rest;
  }

  lemma OwnCons(a: T.Action, rest: seq<T.Action>, c: nat)
    requires OwnStatement(a, c) && OwnStatements(rest, c)
    ensures OwnStatements([a] + rest, c)
  {
    assert forall i :: 0 < i < |[a] + rest| ==> ([a] + rest)[i] == rest[i - 1];
  }

  /** The same call further on, with the same answer due and fewer statements left. */
  ghost predicate Continues(w: T.World, w': T.World, c: nat)
    requires c in w.calls && T.CallOk(w.db, w.calls[c])
  {
    && T.Inv(w') && T.Unfinished(w', c) && Quiet(w', c) && w'.db == w.db && w'.calls.Keys == w.calls.Keys
    && T.CallOk(w'.db, w'.calls[c]) && Due(w'.db, w'.calls[c]) == Due(w.db, w.calls[c])
    && w'.calls[c].kind == w.calls[c].kind && w'.calls[c].id == w.calls[c].id
    && w'.calls[c].transfer == w.calls[c].transfer
    && T.Remaining(w'.calls[c]) < T.Remaining(w.calls[c])
  }

  lemma StatementContinues(w: T.World, c: nat)
    requires T.Inv(w) && T.Unfinished(w, c) && Quiet(w, c) && T.CanMove(w, c) && T.CallOk(w.db, w.calls[c])
    requires !T.Next(w.calls[c], c).Commit? && !T.Moved(w, T.Next(w.calls[c], c)).phase.Done?
    ensures Continues(w, T.Do(w, T.Next(w.calls[c], c)), c)
  {
    var a := T.Next(w.calls[c], c);
    NextIsOwn(w.calls[c], c);
    StatementKeepsDue(w, c);
    StatementFrame(w, a, c);
    T.StepKeepsInv(w, a);
    T.NextReducesRemaining(w, c);
  }

  /** How a call that runs alone ends. */
  ghost predicate EndsAsDue(w: T.World, later: T.World, c: nat)
    requires c in w.calls && T.CallOk(w.db, w.calls[c])
  {
    && T.Inv(later) && later.calls.Keys == w.calls.Keys && Quiet(later, c)
    && later.calls[c].phase == T.Done(Due(w.db, w.calls[c]))
    && later.db == Final(w.db, w.calls[c], Due(w.db, w.calls[c]))
  }

  lemma EndCarriesOver(w: T.World, w': T.World, later: T.World, c: nat)
    requires c in w.calls && T.CallOk(w.db, w.calls[c]) && Continues(w, w', c) && EndsAsDue(w', later, c)
    ensures EndsAsDue(w, later, c)
  {
  }

  /** A call that runs alone ends, by its own statements, with the answer that is due and the
      tables that go with it. */
  lemma {:induction false} RunAlone(w: T.World, c: nat) returns (run: seq<T.Action>)
    requires T.Inv(w) && T.Unfinished(w, c) && Quiet(w, c)
    ensures T.CallOk(w.db, w.calls[c])
    ensures T.Legal(w, run) && OwnStatements(run, c) && EndsAsDue(w, T.After(w, run), c)
    decreases T.Remaining(w.calls[c])
  {
    assert T.CallOk(w.db, w.calls[c]);
    AloneCanMove(w, c);
    var a := T.Next(w.calls[c], c);
    NextIsOwn(w.calls[c], c);
    if a.Commit? || T.Moved(w, a).phase.Done? {
      LastStatement(w, c);
      LegalCons(w, a, []);
      run := [a] + [];
    } else {
      StatementContinues(w, c);
      var rest := RunAlone(T.Do(w, a), c);
      EndCarriesOver(w, T.Do(w, a), T.After(T.Do(w, a), rest), c);
      LegalCons(w, a, rest);
      OwnCons(a, rest, c);
      run := [a] + rest;
    }
  }

  lemma ActingKeepsQuiet(w: T.World, a: T.Action, c: nat)
    requires T.Inv(w) && Quiet(w, c) && OwnStatement(a, c) && T.Enabled(w, a)
    ensures T.Inv(T.Do(w, a)) && T.Do(w, a).calls == w.calls[c := T.Moved(w, a)]
    ensures Quiet(T.Do(w, a), c) && T.Do(w, a).calls.Keys == w.calls.Keys
  {
    T.StepKeepsInv(w, a);
  }

  /** The statement that ends a call ends it with what is due. */
  lemma LastStatement(w: T.World, c: nat)
    requires T.Inv(w) && T.Unfinished(w, c) && T.CanMove(w, c) && Quiet(w, c)
    requires T.Next(w.calls[c], c).Commit? || T.Moved(w, T.Next(w.calls[c], c)).phase.Done?
    ensures T.CallOk(w.db, w.calls[c])
    ensures EndsAsDue(w, T.Do(w, T.Next(w.calls[c], c)), c)
  {
    assert T.CallOk(w.db, w.calls[c]);
    NextIsOwn(w.calls[c], c);
    ActingKeepsQuiet(w, T.Next(w.calls[c], c), c);
    if T.Next(w.calls[c], c).Commit? {
      CommitIsDue(w, c);
    } else {
      ReplyIsDue(w, c);
    }
  }

  lemma ReplyIsDue(w: T.World, c: nat)
    requires T.Inv(w) && T.Unfinished(w, c) && T.CanMove(w, c) && T.CallOk(w.db, w.calls[c])
    requires !T.Next(w.calls[c], c).Commit? && T.Moved(w, T.Next(w.calls[c], c)).phase.Done?
    ensures T.Moved(w, T.Next(w.calls[c], c)).phase == T.Done(Due(w.db, w.calls[c]))
    ensures T.Do(w, T.Next(w.calls[c], c)).db == w.db == Final(w.db, w.calls[c], Due(w.db, w.calls[c]))
  {
    NextIsOwn(w.calls[c], c);
    StatementKeepsDue(w, c);
    StatementFrame(w, T.Next(w.calls[c], c), c);
    RepliesBookNothing(w, c);
  }

  /** Statements of one call change no other call. */
  lemma {:induction false} OwnRunFrame(w: T.World, run: seq<T.Action>, c: nat)
    requires T.Legal(w, run) && OwnStatements(run, c) && c in w.calls
    ensures c in T.After(w, run).calls && T.After(w, run).calls[c].id == w.calls[c].id
    ensures T.After(w, run).calls == w.calls[c := T.After(w, run).calls[c]]
    decreases |run|
  {
    if run != [] {
      assert OwnStatement(run[0], c);
      T.MovedKind(w, run[0]);
      assert forall i :: 0 <= i < |run[1..]| ==> run[1..][i] == run[i + 1];
      OwnRunFrame(T.Do(w, run[0]), run[1..], c);
    } else {
      assert w.calls == w.calls[c := w.calls[c]];
    }
  }

  /** A call made and run alone adds itself to the calls and changes no other. */
  lemma OwnCallFrame(w: T.World, run: seq<T.Action>, c: nat)
    requires T.Legal(w, run) && run != [] && run[0].Start? && run[0].call == c && OwnStatements(run[1..], c)
    ensures c in T.After(w, run).calls && T.After(w, run).calls[c].id == run[0].id
    ensures T.After(w, run).calls == w.calls[c := T.After(w, run).calls[c]]
  {
    OwnRunFrame(T.Do(w, run[0]), run[1..], c);
  }

  // ----- client calls -----------------------------------------------------------------------

  /** What is due to a client call at its start is the service's answer. */
  lemma DueIsAnswer(db: BankDb, call: T.Call)
    requires RowsOk(db) && T.CallOk(db, call) && call.phase == T.Started && IsClient(call.kind)
    ensures Due(db, call) == S.Answer(db, call.id, call.transfer, T.LockOrder(call), Destination(call.kind))
  {
    assert T.LockOrder(call)[0..] == T.LockOrder(call);
    if S.FirstMissing(db.accounts, T.LockOrder(call)) == None {
      LockedMeansPresent(db, call);
    }
  }

  /** A world at rest, and a call nobody has made yet. */
  predicate Fresh(w: T.World, c: nat, id: Uuid) {
    && c !in w.calls && id !in w.db.transfers
    && forall d :: d in w.calls ==> w.calls[d].phase.Done? && w.calls[d].id != id
  }

  /** A client call made alone ends with exactly the service's answer and the service's tables. */
  lemma ClientCallAnswers(w: T.World, c: nat, kind: T.Kind, id: Uuid, t: Transfer) returns (run: seq<T.Action>)
    requires T.Inv(w) && Fresh(w, c, id)
    requires IsClient(kind) && (kind.Interbank? ==> t.payee == SUSPENSE)
    requires 0 < t.amount <= MAX_SAFE_INTEGER && t.payer != t.payee
    ensures run != [] && run[0] == T.Start(c, kind, id, t) && OwnStatements(run[1..], c)
    ensures T.Legal(w, run) && T.Inv(T.After(w, run)) && c in T.After(w, run).calls
    ensures var locks := if kind.Interbank? then [t.payer] else Sorted(t.payer, t.payee);
            var answer := S.Answer(w.db, id, t, locks, Destination(kind));
            && T.After(w, run).calls[c].phase == T.Done(answer)
            && T.After(w, run).db ==
               if answer != Ok(id) then w.db
               else if kind.Interbank? then Debited(w.db, id, t, kind.payeeBank, kind.payeeRef)
               else Booked(w.db, id, t)
  {
    var start := T.Start(c, kind, id, t);
    var started := T.Do(w, start);
    T.StepKeepsInv(w, start);
    var rest := RunAlone(started, c);
    DueIsAnswer(w.db, started.calls[c]);
    LegalCons(w, start, rest);
    run := [start] + rest;
    assert run[1..] == rest;
  }

  /** A valid call under an unused key that fits the column, with its accounts, a safe balance that
      covers the amount and, between banks, a reference of the right length, is booked: the
      transfer, its two entries, and its saga and outbox rows. */
  lemma AffordableCallBooks(w: T.World, c: nat, kind: T.Kind, id: Uuid, t: Transfer) returns (run: seq<T.Action>)
    requires T.Inv(w) && Fresh(w, c, id)
    requires IsClient(kind) && (kind.Interbank? ==> t.payee == SUSPENSE && 1 <= |kind.payeeRef| <= 255)
    requires 0 < t.amount && t.payer != t.payee && t.payer in w.db.accounts && t.payee in w.db.accounts
    requires t.key !in w.db.keys && (t.key.PlainKey? ==> 1 <= |t.key.text| <= 255)
    requires t.amount <= BalanceOf(w.db.ledger, t.payer) <= 9007199254740991
    ensures run != [] && run[0] == T.Start(c, kind, id, t) && OwnStatements(run[1..], c)
    ensures T.Legal(w, run) && c in T.After(w, run).calls && T.After(w, run).calls[c].phase == T.Done(Ok(id))
    ensures var db := T.After(w, run).db;
            && db.transfers == w.db.transfers[id := t] && db.keys == w.db.keys[t.key := id]
            && db.ledger == w.db.ledger + [Entry(id, t.payer, -t.amount), Entry(id, t.payee, t.amount)]
            && db.interbank == (if kind.Local? then w.db.interbank
                                else w.db.interbank[id := Interbank(kind.payeeBank, kind.payeeRef, DEBITED)])
            && db.outbox == if kind.Local? then w.db.outbox
                            else w.db.outbox
                                 + [Row(id, HubModel.Request(id, BANK_ID, kind.payeeBank, kind.payeeRef, t.amount))]
  {
    AffordableAnswer(w.db, kind, id, t);
    run := ClientCallAnswers(w, c, kind, id, t);
    BookedTables(w.db, kind, id, t);
  }

  lemma BookedTables(db: BankDb, kind: T.Kind, id: Uuid, t: Transfer)
    requires IsClient(kind) && (kind.Interbank? ==> t.payee == SUSPENSE)
    ensures var db' := if kind.Interbank? then Debited(db, id, t, kind.payeeBank, kind.payeeRef) else Booked(db, id, t);
            && db'.transfers == db.transfers[id := t] && db'.keys == db.keys[t.key := id]
            && db'.ledger == db.ledger + [Entry(id, t.payer, -t.amount), Entry(id, t.payee, t.amount)]
            && db'.interbank == (if kind.Local? then db.interbank
                                 else db.interbank[id := Interbank(kind.payeeBank, kind.payeeRef, DEBITED)])
            && db'.outbox == if kind.Local? then db.outbox else db.outbox + [RequestRow(kind, id, t)]
  {
  }

  /** The event a call between banks puts in the outbox. */
  function RequestRow(kind: T.Kind, id: Uuid, t: Transfer): Row<HubModel.Request>
    requires kind.Interbank?
  {
    Row(id, HubModel.Request(id, BANK_ID, kind.payeeBank, kind.payeeRef, t.amount))
  }

  lemma AffordableAnswer(db: BankDb, kind: T.Kind, id: Uuid, t: Transfer)
    requires RowsOk(db) && id !in db.transfers
    requires IsClient(kind) && (kind.Interbank? ==> t.payee == SUSPENSE && 1 <= |kind.payeeRef| <= 255)
    requires 0 < t.amount && t.payer != t.payee && t.payer in db.accounts && t.payee in db.accounts
    requires t.key !in db.keys && (t.key.PlainKey? ==> 1 <= |t.key.text| <= 255)
    requires t.amount <= BalanceOf(db.ledger, t.payer) <= 9007199254740991
    ensures var locks := if kind.Interbank? then [t.payer] else Sorted(t.payer, t.payee);
            S.Answer(db, id, t, locks, Destination(kind)) == Ok(id)
  {
    var locks := if kind.Interbank? then [t.payer] else Sorted(t.payer, t.payee);
    S.AnswerMeans(db, id, t, locks, Destination(kind));
  }

  /** With too little money the same call is refused, and nothing is written. */
  lemma UnaffordableCallFails(w: T.World, c: nat, kind: T.Kind, id: Uuid, t: Transfer) returns (run: seq<T.Action>)
    requires T.Inv(w) && Fresh(w, c, id) && IsClient(kind) && (kind.Interbank? ==> t.payee == SUSPENSE)
    requires 0 < t.amount <= 9007199254740991 && t.payer != t.payee
    requires t.payer in w.db.accounts && t.payee in w.db.accounts
    requires t.key !in w.db.keys && (t.key.PlainKey? ==> 1 <= |t.key.text| <= 255)
    requires -9007199254740991 <= BalanceOf(w.db.ledger, t.payer) < t.amount
    ensures run != [] && run[0] == T.Start(c, kind, id, t) && OwnStatements(run[1..], c)
    ensures T.Legal(w, run) && T.After(w, run).db == w.db
    ensures c in T.After(w, run).calls && T.After(w, run).calls[c].phase == T.Done(Err(InsufficientFunds))
  {
    var locks := if kind.Interbank? then [t.payer] else Sorted(t.payer, t.payee);
    S.AnswerMeans(w.db, id, t, locks, Destination(kind));
    run := ClientCallAnswers(w, c, kind, id, t);
  }

  // ----- refunds and seeds ------------------------------------------------------------------

  /** A refund made alone is the one-step compensation. */
  lemma RefundAlone(w: T.World, c: nat, o: A.Outcome, id: Uuid) returns (run: seq<T.Action>)
    requires T.Inv(w) && Fresh(w, c, id) && o.verdict != HubModel.CONFIRMED
    requires o.id in w.db.interbank && w.db.interbank[o.id].status == DEBITED
    ensures o.id in w.db.transfers
    ensures run != [] && run[0] == T.Start(c, T.Refund(o), id, Reversal(w.db, o.id)) && OwnStatements(run[1..], c)
    ensures T.Legal(w, run) && T.After(w, run).db == Compensated(w.db, o.id, id)
    ensures c in T.After(w, run).calls
    ensures T.After(w, run).calls[c].phase.Done? && T.After(w, run).calls[c].phase.result.Ok?
  {
    assert RowOk(w.db, o.id);
    var start := T.Start(c, T.Refund(o), id, Reversal(w.db, o.id));
    var started := T.Do(w, start);
    T.StepKeepsInv(w, start);
    assert {SUSPENSE, DEV_TREASURY} <= w.db.accounts;
    assert T.LockOrder(started.calls[c])[0..] == [];
    var rest := RunAlone(started, c);
    LegalCons(w, start, rest);
    run := [start] + rest;
    assert run[1..] == rest;
  }

  /** A dev seed made alone is booked under a free key. */
  lemma SeedAlone(w: T.World, c: nat, id: Uuid, account: Uuid, amount: int) returns (run: seq<T.Action>)
    requires T.Inv(w) && Fresh(w, c, id) && DevSeedKey(id) !in w.db.keys
    requires account in w.db.accounts && account != DEV_TREASURY && 0 < amount <= MAX_SAFE_INTEGER
    ensures var t := Transfer(DevSeedKey(id), DEV_TREASURY, account, amount);
            && run != [] && run[0] == T.Start(c, T.Seed, id, t) && OwnStatements(run[1..], c)
            && T.Legal(w, run) && T.After(w, run).db == Booked(w.db, id, t)
            && c in T.After(w, run).calls && T.After(w, run).calls[c].phase == T.Done(Ok(id))
  {
    var start := T.Start(c, T.Seed, id, A.Seed(id, account, amount));
    var started := T.Do(w, start);
    T.StepKeepsInv(w, start);
    assert {SUSPENSE, DEV_TREASURY} <= w.db.accounts;
    assert T.LockOrder(started.calls[c])[0..] == [];
    var rest := RunAlone(started, c);
    LegalCons(w, start, rest);
    run := [start] + rest;
    assert run[1..] == rest;
  }

  // ----- repeated calls ---------------------------------------------------------------------

  lemma {:induction false} AnsweredStays(w: T.World, run: seq<T.Action>, c: nat)
    requires T.Inv(w) && T.Legal(w, run) && c in w.calls && w.calls[c].phase.Done?
    ensures c in T.After(w, run).calls && T.After(w, run).calls[c] == w.calls[c]
    decreases |run|
  {
    if run != [] {
      T.StepKeepsInv(w, run[0]);
      AnsweredStays(T.Do(w, run[0]), run[1..], c);
    }
  }

  /** Once a client call has succeeded, every later lookup of its key, at the start of a call or
      after losing a race, answers with the same transfer if the parameters are the same and
      with a conflict if any differs, in every later state and whatever became of the transfer. */
  lemma RepeatedCallReplays(w: T.World, run: seq<T.Action>, c: nat, d: nat, a: T.Action)
    requires T.Inv(w) && T.Legal(w, run) && c in w.calls && IsClient(w.calls[c].kind)
    requires w.calls[c].phase.Done? && w.calls[c].phase.result.Ok?
    requires d in T.After(w, run).calls && IsClient(T.After(w, run).calls[d].kind)
    requires T.After(w, run).calls[d].transfer.key == w.calls[c].transfer.key
    requires || (a == T.Lookup(d) && T.After(w, run).calls[d].phase == T.Started)
             || (a == T.LookupWinner(d) && T.After(w, run).calls[d].phase == T.Lost)
    ensures T.Enabled(T.After(w, run), a)
    ensures var first, again, db := w.calls[c], T.After(w, run).calls[d], T.After(w, run).db;
            var holder := first.phase.result.value;
            var same := && again.transfer.payer == first.transfer.payer && again.transfer.payee == first.transfer.payee
                        && again.transfer.amount == first.transfer.amount
                        && (again.kind.Interbank? ==>
                              && holder in db.interbank
                              && db.interbank[holder].payeeBank == again.kind.payeeBank
                              && db.interbank[holder].payeeRef == again.kind.payeeRef);
            T.Do(T.After(w, run), a).calls[d].phase == T.Done(if same then Ok(holder) else Err(IdempotencyConflict))
    ensures w.calls[c].kind.Interbank? ==>
              var holder, db := w.calls[c].phase.result.value, T.After(w, run).db;
              && holder in db.interbank
              && db.interbank[holder].payeeBank == w.calls[c].kind.payeeBank
              && db.interbank[holder].payeeRef == w.calls[c].kind.payeeRef
  {
    var later := T.After(w, run);
    T.RunKeepsInv(w, run);
    AnsweredStays(w, run, c);
    assert T.CallOk(later.db, later.calls[c]);
    ReplaysMean(later.db, later.calls[d]);
  }

  lemma ReplaysMean(db: BankDb, call: T.Call)
    requires RowsOk(db) && call.transfer.key in db.keys && IsClient(call.kind)
    ensures T.Replay(db, call) == Replayed(db, call.transfer, Destination(call.kind))
    ensures var holder := db.keys[call.transfer.key];
            && holder in db.transfers
            && var held := db.transfers[holder];
               var same := && held.payer == call.transfer.payer && held.payee == call.transfer.payee
                           && held.amount == call.transfer.amount
                           && (call.kind.Interbank? ==>
                                 && holder in db.interbank
                                 && db.interbank[holder].payeeBank == call.kind.payeeBank
                                 && db.interbank[holder].payeeRef == call.kind.payeeRef);
               T.Replay(db, call) == if same then Ok(holder) else Err(IdempotencyConflict)
  {
    S.ReplayedIff(db, call.transfer, Destination(call.kind));
  }
}
