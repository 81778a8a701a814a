/**
 Bank A's tables and its transactions as functions on them, with the
 invariant that ties transfers, ledger, saga rows, outbox and the suspense account together.
 */
module BankAModel {
  import opened Prelude
  import opened Totals
  import opened Ledger
  import opened Outbox
  import HubModel

  const BANK_ID: BankId := "bank-a"
  const SUSPENSE: Uuid := 0x1
  const DEV_TREASURY: Uuid := 0x99

  /** The unique idempotency-key column is one text column, and a client may send any text. A
      text is told apart by what it spells: the generated key of a compensation, that of a dev
      seed, or anything else. */
  datatype Key = PlainKey(text: string) | CompensationKey(transfer: Uuid) | DevSeedKey(transfer: Uuid)

  datatype Transfer = Transfer(key: Key, payer: Uuid, payee: Uuid, amount: int)

  datatype Status = DEBITED | CONFIRMED | COMPENSATED

  datatype Interbank = Interbank(payeeBank: BankId, payeeRef: string, status: Status)

  datatype BankDb = BankDb(
    accounts: set<Uuid>,
    transfers: map<Uuid, Transfer>,
    keys: map<Key, Uuid>,
    interbank: map<Uuid, Interbank>,
    ledger: seq<Entry<Uuid>>,
    outbox: seq<Row<HubModel.Request>>,
    published: set<nat>)

  const EMPTY_BANK := BankDb({SUSPENSE, DEV_TREASURY}, map[], map[], map[], [], [], {})

  datatype Error = InvalidAmount | SelfTransfer | AccountNotFound(account: Uuid) | InsufficientFunds
                 | IdempotencyConflict | Vanished | Database

  // ----- transactions -----------------------------------------------------------------------

  /** The checks of `Transfer.create`, with the bound every `Money` carries. */
  predicate ValidTransfer(t: Transfer) {
    0 < t.amount <= MAX_SAFE_INTEGER && t.payer != t.payee
  }

  /** Two transfers over the same accounts lock them in the same order. */
  function Sorted(a: Uuid, b: Uuid): seq<Uuid> {
    if a <= b then [a, b] else [b, a]
  }

  /** The length CHECK on the key column; a text that spells a generated key always meets it. */
  predicate ValidKey(key: Key) {
    key.PlainKey? ==> 1 <= |key.text| <= 255
  }

  /** The CHECK constraints of the transfers table. */
  predicate TransferChecks(t: Transfer) {
    ValidKey(t.key) && 0 < t.amount <= MAX_BIGINT && t.payer != t.payee
  }

  /** The key, foreign keys and unique columns of one new transfers row. */
  predicate RowFree(db: BankDb, id: Uuid, t: Transfer) {
    ValidKey(t.key) && id !in db.transfers && t.key !in db.keys && t.payer in db.accounts && t.payee in db.accounts
  }

  /** Accounts whose debits are covered: suspense is never checked by the saga, and a dev seed
      may race with a checked debit of the treasury. */
  predicate Checked(account: Uuid) {
    account != SUSPENSE && account != DEV_TREASURY
  }

  predicate Covered(db: BankDb, t: Transfer) {
    Checked(t.payer) ==> t.amount <= BalanceOf(db.ledger, t.payer)
  }

  predicate ValidRef(payeeRef: string) {
    1 <= |payeeRef| <= 255
  }

  /** The answer to a call whose key is taken: the transfer that holds it, provided payer, payee,
      amount and, between banks, the destination are the same. */
  function Replayed(db: BankDb, t: Transfer, destination: Option<(BankId, string)>): Result<Uuid, Error>
    requires t.key in db.keys
  {
    var id := db.keys[t.key];
    if id !in db.transfers then Err(Vanished)
    else if db.transfers[id].payer != t.payer || db.transfers[id].payee != t.payee then Err(IdempotencyConflict)
    else if db.transfers[id].amount != t.amount then Err(IdempotencyConflict)
    else if destination.Some? && !(id in db.interbank
                                   && destination == Some((db.interbank[id].payeeBank, db.interbank[id].payeeRef)))
    then Err(IdempotencyConflict)
    else Ok(id)
  }

  /** A transfers row with its double entry. */
  function Booked(db: BankDb, id: Uuid, t: Transfer): BankDb {
    db.(transfers := db.transfers[id := t],
        keys := db.keys[t.key := id],
        ledger := db.ledger + Movement(id, t.payer, t.payee, t.amount))
  }

  function RequestFor(id: Uuid, payeeBank: BankId, payeeRef: string, amount: int): HubModel.Request {
    HubModel.Request(id, BANK_ID, payeeBank, payeeRef, amount)
  }

  /** The interbank debit: transfer to suspense, saga row and outbox row in one commit. */
  function Debited(db: BankDb, id: Uuid, t: Transfer, payeeBank: BankId, payeeRef: string): BankDb {
    var booked := Booked(db, id, t);
    booked.(interbank := db.interbank[id := Interbank(payeeBank, payeeRef, DEBITED)],
            outbox := db.outbox + [Row(id, RequestFor(id, payeeBank, payeeRef, t.amount))])
  }

  /** A status is only ever written over DEBITED; any other row stays as it is. */
  function Marked(interbank: map<Uuid, Interbank>, id: Uuid, status: Status): map<Uuid, Interbank> {
    if id in interbank && interbank[id].status == DEBITED then interbank[id := interbank[id].(status := status)]
    else interbank
  }

  function Confirmed(db: BankDb, id: Uuid): BankDb {
    db.(interbank := Marked(db.interbank, id, CONFIRMED))
  }

  /** The refund: the payer gets the amount back out of suspense, under a key of its own. */
  function Reversal(db: BankDb, original: Uuid): Transfer
    requires original in db.transfers
  {
    Transfer(CompensationKey(original), SUSPENSE, db.transfers[original].payer, db.transfers[original].amount)
  }

  /** The transaction of `compensate`: the refund is booked unless its key is taken, and the
      guarded status update runs either way. */
  function Compensated(db: BankDb, original: Uuid, id: Uuid): BankDb
    requires original in db.transfers
  {
    var t := Reversal(db, original);
    var booked := if t.key in db.keys then db else Booked(db, id, t);
    booked.(interbank := Marked(db.interbank, original, COMPENSATED))
  }

  // ----- the invariant ----------------------------------------------------------------------

  /** One transfer id's rows: a valid transfer owns its key and exactly its two entries; a saga
      row has its transfer to suspense and exactly one outbox row, with its own request. */
  ghost predicate RowOk(db: BankDb, id: Uuid) {
    var entries, rows := EntriesFor(db.ledger, id), RowsFor(db.outbox, id);
    && (if id in db.transfers then
          var t := db.transfers[id];
          && ValidTransfer(t) && t.payer in db.accounts && t.payee in db.accounts
          && t.key in db.keys && db.keys[t.key] == id
          && entries == Movement(id, t.payer, t.payee, t.amount)
        else
          entries == [] && id !in db.interbank)
    && (if id in db.interbank then
          var b := db.interbank[id];
          && ValidRef(b.payeeRef) && db.transfers[id].payee == SUSPENSE
          && rows == [Row(id, RequestFor(id, b.payeeBank, b.payeeRef, db.transfers[id].amount))]
        else rows == [])
  }

  /** One key's share: the index points at the row that carries the key. */
  ghost predicate KeyOk(db: BankDb, key: Key) {
    key in db.keys ==> db.keys[key] in db.transfers && db.transfers[db.keys[key]].key == key
  }

  /** What one transfer does to an account. */
  function Flow(t: Transfer, account: Uuid): int {
    (if t.payee == account then t.amount else 0) - (if t.payer == account then t.amount else 0)
  }

  function Flows(transfers: map<Uuid, Transfer>, account: Uuid): map<Uuid, int> {
    map id | id in transfers :: Flow(transfers[id], account)
  }

  /** An account's folded balance is what the transfers did to it. */
  ghost predicate BalanceOk(db: BankDb, account: Uuid) {
    BalanceOf(db.ledger, account) == Total(Flows(db.transfers, account))
  }

  /** What every transaction keeps, whatever accounts and keys its callers name and whatever
      outcomes arrive. */
  ghost predicate RowsOk(db: BankDb) {
    && {SUSPENSE, DEV_TREASURY} <= db.accounts
    && (forall id :: RowOk(db, id))
    && (forall key :: KeyOk(db, key))
    && (forall account :: BalanceOk(db, account))
  }

  /** A refund is the reversal row itself; a row that only carries the key is not one. */
  predicate IsRefundOf(db: BankDb, c: Uuid, id: Uuid) {
    id in db.transfers && c in db.transfers && db.transfers[c] == Reversal(db, id)
  }

  predicate Refunded(db: BankDb, id: Uuid) {
    CompensationKey(id) in db.keys && IsRefundOf(db, db.keys[CompensationKey(id)], id)
  }

  predicate RefundOk(db: BankDb, id: Uuid) {
    id in db.interbank ==>
      && (db.interbank[id].status == COMPENSATED ==> Refunded(db, id))
      && (db.interbank[id].status == CONFIRMED ==> !Refunded(db, id))
  }

  /** Every compensated transfer is refunded and no confirmed one is. */
  ghost predicate RefundsOk(db: BankDb) {
    forall id :: RefundOk(db, id)
  }

  /** No DEBITED transfer is refunded yet: a reversal row was made by a compensation, not by a
      caller who spelled its key and paid out of suspense. */
  predicate Unforged(db: BankDb, c: Uuid) {
    c in db.transfers && db.transfers[c].payer == SUSPENSE && db.transfers[c].key.CompensationKey? ==>
      && db.transfers[c].key.transfer in db.interbank
      && db.interbank[db.transfers[c].key.transfer].status != DEBITED
  }

  ghost predicate NoneForged(db: BankDb) {
    forall c :: Unforged(db, c)
  }

  /** What a saga row keeps in suspense. */
  function Parked(db: BankDb, id: Uuid): int
    requires id in db.interbank && id in db.transfers
  {
    if db.interbank[id].status == COMPENSATED then 0 else db.transfers[id].amount
  }

  function ParkedAmounts(db: BankDb): map<Uuid, int> {
    map id | id in db.interbank && id in db.transfers :: Parked(db, id)
  }

  /** Money left in suspense because its refund never happened. */
  function Stranded(db: BankDb, id: Uuid): int
    requires id in db.interbank && id in db.transfers
  {
    if db.interbank[id].status == COMPENSATED && !Refunded(db, id) then db.transfers[id].amount else 0
  }

  function StrandedAmounts(db: BankDb): map<Uuid, int> {
    map id | id in db.interbank && id in db.transfers :: Stranded(db, id)
  }

  /** The refund of a compensated transfer. */
  predicate SagaRefund(db: BankDb, c: Uuid) {
    && c in db.transfers && db.transfers[c].key.CompensationKey?
    && var id := db.transfers[c].key.transfer;
       id in db.interbank && db.interbank[id].status == COMPENSATED && IsRefundOf(db, c, id)
  }

  /** What all other transfers did to suspense. */
  function OtherFlow(db: BankDb, id: Uuid): int
    requires id in db.transfers
  {
    if id in db.interbank || SagaRefund(db, id) then 0 else Flow(db.transfers[id], SUSPENSE)
  }

  function OtherFlows(db: BankDb): map<Uuid, int> {
    map id | id in db.transfers :: OtherFlow(db, id)
  }

  predicate SagaUse(db: BankDb, id: Uuid) {
    id in db.transfers ==>
      && (db.transfers[id].payee == SUSPENSE ==> id in db.interbank)
      && (db.transfers[id].payer == SUSPENSE ==> SagaRefund(db, id))
  }

  /** The suspense balance is the sum of the interbank transfers not compensated, and only the
      saga moves it. */
  ghost predicate SuspenseOk(db: BankDb) {
    && BalanceOf(db.ledger, SUSPENSE) == Total(ParkedAmounts(db))
    && forall id :: SagaUse(db, id)
  }

  ghost predicate BankOk(db: BankDb) {
    RowsOk(db) && RefundsOk(db) && SuspenseOk(db)
  }

  ghost predicate NoOverdraft(db: BankDb) {
    forall account :: Checked(account) ==> BalanceOf(db.ledger, account) >= 0
  }

  lemma EmptyBankOk()
    ensures BankOk(EMPTY_BANK) && NoOverdraft(EMPTY_BANK) && NoneForged(EMPTY_BANK)
  {
    assert ParkedAmounts(EMPTY_BANK) == map[];
    forall account ensures BalanceOk(EMPTY_BANK, account) {
      assert Flows(EMPTY_BANK.transfers, account) == map[];
    }
  }

  // ----- the transactions keep the rows -----------------------------------------------------

  /** Tables that differ at most in accounts, publication marks and saga statuses. */
  lemma SameBalances(db: BankDb, db': BankDb)
    requires RowsOk(db) && db'.ledger == db.ledger && db'.transfers == db.transfers
    ensures forall account :: BalanceOk(db', account)
  {
    forall account ensures BalanceOk(db', account) { assert BalanceOk(db, account); }
  }

  lemma OpenKeepsRowsOk(db: BankDb, account: Uuid)
    requires RowsOk(db)
    ensures RowsOk(db.(accounts := db.accounts + {account}))
  {
    var db' := db.(accounts := db.accounts + {account});
    forall id ensures RowOk(db', id) { assert RowOk(db, id); }
    forall key ensures KeyOk(db', key) { assert KeyOk(db, key); }
    SameBalances(db, db');
  }

  lemma PublishingKeepsRowsOk(db: BankDb, published: set<nat>)
    requires RowsOk(db)
    ensures RowsOk(db.(published := published))
  {
    var db' := db.(published := published);
    forall id ensures RowOk(db', id) { assert RowOk(db, id); }
    forall key ensures KeyOk(db', key) { assert KeyOk(db, key); }
    SameBalances(db, db');
  }

  /** A new transfers row. */
  predicate Bookable(db: BankDb, id: Uuid, t: Transfer) {
    ValidTransfer(t) && id !in db.transfers && t.key !in db.keys && t.payer in db.accounts && t.payee in db.accounts
  }

  lemma BookedKeepsRowOk(db: BankDb, id: Uuid, t: Transfer, x: Uuid)
    requires RowOk(db, id) && RowOk(db, x) && Bookable(db, id, t)
    ensures RowOk(Booked(db, id, t), x)
  {
    AppendMovement(db.ledger, id, t.payer, t.payee, t.amount, SUSPENSE, x);
  }

  lemma BookedKeepsBalanceOk(db: BankDb, id: Uuid, t: Transfer, account: Uuid)
    requires BalanceOk(db, account) && id !in db.transfers
    ensures BalanceOk(Booked(db, id, t), account)
  {
    AppendMovement(db.ledger, id, t.payer, t.payee, t.amount, account, 0);
    TotalUpdate(Flows(db.transfers, account), id, Flow(t, account));
    assert Flows(db.transfers[id := t], account) == Flows(db.transfers, account)[id := Flow(t, account)];
  }

  lemma BookedKeepsRowsOk(db: BankDb, id: Uuid, t: Transfer)
    requires RowsOk(db) && Bookable(db, id, t)
    ensures RowsOk(Booked(db, id, t))
  {
    var db' := Booked(db, id, t);
    forall x ensures RowOk(db', x) {
      assert RowOk(db, id) && RowOk(db, x);
      BookedKeepsRowOk(db, id, t, x);
    }
    forall key ensures KeyOk(db', key) { assert KeyOk(db, key); }
    forall account ensures BalanceOk(db', account) {
      assert BalanceOk(db, account);
      BookedKeepsBalanceOk(db, id, t, account);
    }
  }

  lemma DebitedKeepsRowOk(db: BankDb, id: Uuid, t: Transfer, payeeBank: BankId, payeeRef: string, x: Uuid)
    requires RowOk(db, id) && RowOk(db, x) && Bookable(db, id, t) && ValidRef(payeeRef)
    requires t.payee == SUSPENSE
    ensures RowOk(Debited(db, id, t, payeeBank, payeeRef), x)
  {
    BookedKeepsRowOk(db, id, t, x);
    RowsPush(db.outbox, Row(id, RequestFor(id, payeeBank, payeeRef, t.amount)), x);
  }

  lemma DebitedKeepsRowsOk(db: BankDb, id: Uuid, t: Transfer, payeeBank: BankId, payeeRef: string)
    requires RowsOk(db) && Bookable(db, id, t) && ValidRef(payeeRef)
    requires t.payee == SUSPENSE
    ensures RowsOk(Debited(db, id, t, payeeBank, payeeRef))
  {
    var db' := Debited(db, id, t, payeeBank, payeeRef);
    forall x ensures RowOk(db', x) {
      assert RowOk(db, id) && RowOk(db, x);
      DebitedKeepsRowOk(db, id, t, payeeBank, payeeRef, x);
    }
    forall key ensures KeyOk(db', key) { assert KeyOk(db, key); }
    BookedKeepsRowsOk(db, id, t);
    SameBalances(Booked(db, id, t), db');
  }

  lemma MarkedKeepsRowsOk(db: BankDb, id: Uuid, status: Status)
    requires RowsOk(db)
    ensures RowsOk(db.(interbank := Marked(db.interbank, id, status)))
  {
    var db' := db.(interbank := Marked(db.interbank, id, status));
    forall x ensures RowOk(db', x) { assert RowOk(db, x); }
    forall key ensures KeyOk(db', key) { assert KeyOk(db, key); }
    SameBalances(db, db');
  }

  lemma ReversalIsBookable(db: BankDb, original: Uuid, id: Uuid)
    requires RowsOk(db) && original in db.interbank && id !in db.transfers
    ensures original in db.transfers
    ensures CompensationKey(original) !in db.keys ==> Bookable(db, id, Reversal(db, original))
  {
    assert RowOk(db, original);
  }

  /** Compensating keeps the rows in order whatever became of the transfer in the meantime. */
  lemma CompensatedKeepsRowsOk(db: BankDb, original: Uuid, id: Uuid)
    requires RowsOk(db) && original in db.interbank && original in db.transfers && id !in db.transfers
    ensures RowsOk(Compensated(db, original, id))
  {
    var t := Reversal(db, original);
    if t.key in db.keys {
      MarkedKeepsRowsOk(db, original, COMPENSATED);
    } else {
      ReversalIsBookable(db, original, id);
      BookedKeepsRowsOk(db, id, t);
      MarkedKeepsRowsOk(Booked(db, id, t), original, COMPENSATED);
    }
  }

  // ----- when refunds and statuses stay together --------------------------------------------

  /** Whoever holds the compensation key, there is at most one refund, and the key finds it. */
  lemma RefundedIffRowExists(db: BankDb, id: Uuid)
    requires RowsOk(db)
    ensures Refunded(db, id) <==> exists c :: IsRefundOf(db, c, id)
    ensures forall c :: IsRefundOf(db, c, id) ==> CompensationKey(id) in db.keys && c == db.keys[CompensationKey(id)]
  {
    forall c | IsRefundOf(db, c, id) ensures CompensationKey(id) in db.keys && c == db.keys[CompensationKey(id)] {
      assert RowOk(db, c);
    }
  }

  /** A compensation is sound unless it finds its transfer DEBITED and the key taken by a row
      that is no refund, or CONFIRMED and the key free. */
  predicate CompensationSound(db: BankDb, original: Uuid)
    requires original in db.interbank
  {
    match db.interbank[original].status
    case DEBITED => CompensationKey(original) !in db.keys || Refunded(db, original)
    case CONFIRMED => CompensationKey(original) in db.keys
    case COMPENSATED => true
  }

  /** A confirmation is sound unless a caller has already refunded the transfer. */
  predicate ConfirmationSound(db: BankDb, id: Uuid) {
    id in db.interbank && db.interbank[id].status == DEBITED ==> !Refunded(db, id)
  }

  /** A caller's transfer is sound unless it is the very reversal of a confirmed one. */
  predicate BookingSound(db: BankDb, t: Transfer) {
    t.key.CompensationKey? ==>
      var id := t.key.transfer;
      id in db.interbank && id in db.transfers && db.interbank[id].status == CONFIRMED ==> t != Reversal(db, id)
  }

  lemma BookedRefunds(db: BankDb, id: Uuid, t: Transfer, x: Uuid)
    requires RowsOk(db) && Bookable(db, id, t) && x in db.interbank
    ensures x in db.transfers
    ensures Refunded(Booked(db, id, t), x) <==> Refunded(db, x) || t == Reversal(db, x)
  {
    assert RowOk(db, x) && KeyOk(db, CompensationKey(x));
  }

  lemma BookedKeepsRefundsOkIff(db: BankDb, id: Uuid, t: Transfer)
    requires RowsOk(db) && RefundsOk(db) && Bookable(db, id, t)
    ensures RefundsOk(Booked(db, id, t)) <==> BookingSound(db, t)
  {
    var db' := Booked(db, id, t);
    forall x | x in db.interbank
      ensures x in db.transfers
      ensures RefundOk(db', x) <==> (t == Reversal(db, x) ==> db.interbank[x].status != CONFIRMED)
    {
      assert RefundOk(db, x);
      BookedRefunds(db, id, t, x);
    }
    if !BookingSound(db, t) {
      assert !RefundOk(db', t.key.transfer);
    }
  }

  /** A debit is no reversal: it pays into suspense. */
  lemma DebitedKeepsRefundsOk(db: BankDb, id: Uuid, t: Transfer, payeeBank: BankId, payeeRef: string)
    requires RowsOk(db) && RefundsOk(db) && Bookable(db, id, t) && t.payee == SUSPENSE
    ensures RefundsOk(Debited(db, id, t, payeeBank, payeeRef))
  {
    var db', booked := Debited(db, id, t, payeeBank, payeeRef), Booked(db, id, t);
    BookedKeepsRefundsOkIff(db, id, t);
    forall x ensures RefundOk(db', x) { assert RefundOk(booked, x); }
  }

  lemma ConfirmedKeepsRefundsOkIff(db: BankDb, id: Uuid)
    requires RefundsOk(db)
    ensures RefundsOk(Confirmed(db, id)) <==> ConfirmationSound(db, id)
  {
    var db' := Confirmed(db, id);
    forall x | x != id ensures RefundOk(db', x) { assert RefundOk(db, x); }
    assert RefundOk(db, id);
    assert RefundOk(db', id) <==> ConfirmationSound(db, id);
  }

  lemma SkippedKeepsRefundsOkIff(db: BankDb, original: Uuid, id: Uuid)
    requires RefundsOk(db) && original in db.interbank && original in db.transfers
    requires CompensationKey(original) in db.keys
    ensures RefundsOk(Compensated(db, original, id)) <==> CompensationSound(db, original)
  {
    var db' := Compensated(db, original, id);
    forall x | x != original ensures RefundOk(db', x) { assert RefundOk(db, x); }
    assert RefundOk(db, original);
    assert RefundOk(db', original) <==> CompensationSound(db, original);
  }

  lemma BookedRefundKeepsRefundsOkIff(db: BankDb, original: Uuid, id: Uuid)
    requires RowsOk(db) && RefundsOk(db) && original in db.interbank && original in db.transfers && id !in db.transfers
    requires CompensationKey(original) !in db.keys
    ensures RefundsOk(Compensated(db, original, id)) <==> CompensationSound(db, original)
  {
    var db', t := Compensated(db, original, id), Reversal(db, original);
    ReversalIsBookable(db, original, id);
    forall x | x in db.interbank ensures Refunded(db', x) <==> Refunded(db, x) || x == original {
      BookedRefunds(db, id, t, x);
    }
    forall x | x != original ensures RefundOk(db', x) { assert RefundOk(db, x); }
    assert RefundOk(db, original);
    assert RefundOk(db', original) <==> CompensationSound(db, original);
  }

  /** Exactly when a compensation keeps refunds and statuses together: neither may the transfer
      have been confirmed with the key free, nor may the key of a DEBITED one be taken. */
  lemma CompensatedKeepsRefundsOkIff(db: BankDb, original: Uuid, id: Uuid)
    requires RowsOk(db) && RefundsOk(db) && original in db.interbank && original in db.transfers && id !in db.transfers
    ensures RefundsOk(Compensated(db, original, id)) <==> CompensationSound(db, original)
  {
    if CompensationKey(original) in db.keys {
      SkippedKeepsRefundsOkIff(db, original, id);
    } else {
      BookedRefundKeepsRefundsOkIff(db, original, id);
    }
  }

  /** The failure that needs no confirmation: a client's transfer has taken the compensation key,
      so the compensation marks the transfer, appends nothing, and nobody is refunded. */
  lemma TakenKeyStrandsRefund(db: BankDb, id: Uuid, client: Uuid, t: Transfer, refund: Uuid)
    requires RowsOk(db) && id in db.interbank && id in db.transfers && db.interbank[id].status == DEBITED
    requires Bookable(db, client, t) && t.key == CompensationKey(id) && t.payer != SUSPENSE
    ensures var booked := Booked(db, client, t);
            var after := Compensated(booked, id, refund);
            && after.interbank[id].status == COMPENSATED
            && after.ledger == booked.ledger && after.transfers == booked.transfers
            && (forall c :: !IsRefundOf(after, c, id))
            && !RefundsOk(after)
  {
    var booked := Booked(db, client, t);
    var after := Compensated(booked, id, refund);
    assert !RefundOk(after, id);
    BookedKeepsRowsOk(db, client, t);
    MarkedKeepsRowsOk(booked, id, COMPENSATED);
    RefundedIffRowExists(after, id);
  }

  // ----- where the money in suspense belongs --------------------------------------------------

  /** Saga debits, as flows of their transfers. */
  function DebitFlows(db: BankDb): map<Uuid, int> {
    map id | id in db.transfers :: if id in db.interbank then db.transfers[id].amount else 0
  }

  function RefundFlows(db: BankDb): map<Uuid, int> {
    map id | id in db.transfers :: if SagaRefund(db, id) then db.transfers[id].amount else 0
  }

  /** The same, listed by saga row. */
  function DebitAmounts(db: BankDb): map<Uuid, int> {
    map id | id in db.interbank && id in db.transfers :: db.transfers[id].amount
  }

  predicate Returned(db: BankDb, id: Uuid) {
    id in db.interbank && db.interbank[id].status == COMPENSATED && Refunded(db, id)
  }

  function ReturnedAmounts(db: BankDb): map<Uuid, int> {
    map id | id in db.interbank && id in db.transfers :: if Returned(db, id) then db.transfers[id].amount else 0
  }

  lemma FlowSplits(db: BankDb, id: Uuid)
    requires RowsOk(db) && id in db.transfers
    ensures Flow(db.transfers[id], SUSPENSE) == DebitFlows(db)[id] - RefundFlows(db)[id] + OtherFlows(db)[id]
  {
    assert RowOk(db, id);
    if SagaRefund(db, id) {
      assert RowOk(db, db.transfers[id].key.transfer);
    }
  }

  lemma FlowsSplit(db: BankDb)
    requires RowsOk(db)
    ensures Total(Flows(db.transfers, SUSPENSE)) ==
            Total(DebitFlows(db)) - Total(RefundFlows(db)) + Total(OtherFlows(db))
  {
    var flows := Flows(db.transfers, SUSPENSE);
    var debits, refunds, others := DebitFlows(db), RefundFlows(db), OtherFlows(db);
    var net := map id | id in db.transfers :: debits[id] + others[id];
    forall id | id in flows ensures flows[id] == net[id] - refunds[id] {
      FlowSplits(db, id);
    }
    TotalSum(net, debits, others);
    TotalSum(net, flows, refunds);
  }

  lemma DebitsByRow(db: BankDb)
    requires RowsOk(db)
    ensures Total(DebitFlows(db)) == Total(DebitAmounts(db))
  {
    forall id | id in db.interbank ensures id in db.transfers { assert RowOk(db, id); }
    TotalPadded(DebitAmounts(db), DebitFlows(db));
  }

  /** The refunds themselves, the transfers they return, and which returns which. */
  function RefundRows(db: BankDb): map<Uuid, int> {
    map c | c in db.transfers && SagaRefund(db, c) :: db.transfers[c].amount
  }

  function ReturnedRows(db: BankDb): map<Uuid, int> {
    map id | id in db.interbank && id in db.transfers && Returned(db, id) :: db.transfers[id].amount
  }

  function Originals(db: BankDb): map<Uuid, Uuid> {
    map c | c in db.transfers && SagaRefund(db, c) :: db.transfers[c].key.transfer
  }

  lemma RefundReturns(db: BankDb, c: Uuid)
    requires RowsOk(db) && SagaRefund(db, c)
    ensures var id := db.transfers[c].key.transfer;
            && id in ReturnedRows(db) && ReturnedRows(db)[id] == db.transfers[c].amount
            && CompensationKey(id) in db.keys && db.keys[CompensationKey(id)] == c
  {
    RefundedIffRowExists(db, db.transfers[c].key.transfer);
  }

  lemma RefundsMatchReturns(db: BankDb)
    requires RowsOk(db)
    ensures Total(RefundRows(db)) == Total(ReturnedRows(db))
  {
    var refunds, returned, originals := RefundRows(db), ReturnedRows(db), Originals(db);
    forall c | c in refunds
      ensures originals[c] in returned && returned[originals[c]] == refunds[c]
      ensures CompensationKey(originals[c]) in db.keys && db.keys[CompensationKey(originals[c])] == c
    {
      RefundReturns(db, c);
    }
    forall id | id in returned ensures exists c :: c in refunds && originals[c] == id {
      assert db.keys[CompensationKey(id)] in refunds;
    }
    TotalReindex(refunds, returned, originals);
  }

  lemma RefundsByRow(db: BankDb)
    requires RowsOk(db)
    ensures Total(RefundFlows(db)) == Total(ReturnedAmounts(db))
  {
    RefundsMatchReturns(db);
    TotalPadded(RefundRows(db), RefundFlows(db));
    TotalPadded(ReturnedRows(db), ReturnedAmounts(db));
  }

  /** In every state, whoever used suspense and under whatever keys: its balance is what is not
      compensated, plus what was compensated and never refunded, plus the net of everybody
      else's transfers through it. */
  lemma SuspenseAccounting(db: BankDb)
    requires RowsOk(db)
    ensures BalanceOf(db.ledger, SUSPENSE) ==
            Total(ParkedAmounts(db)) + Total(StrandedAmounts(db)) + Total(OtherFlows(db))
  {
    assert BalanceOk(db, SUSPENSE);
    FlowsSplit(db);
    DebitsByRow(db);
    RefundsByRow(db);
    var debits, returned := DebitAmounts(db), ReturnedAmounts(db);
    var parked, stranded := ParkedAmounts(db), StrandedAmounts(db);
    var kept := map id | id in debits :: parked[id] + stranded[id];
    TotalSum(kept, parked, stranded);
    TotalSum(debits, kept, returned);
  }

  lemma NothingStranded(db: BankDb)
    requires RefundsOk(db)
    ensures Total(StrandedAmounts(db)) == 0
  {
    forall id | id in StrandedAmounts(db) ensures StrandedAmounts(db)[id] == 0 { assert RefundOk(db, id); }
    TotalPadded(map[], StrandedAmounts(db));
  }

  lemma NothingElse(db: BankDb)
    requires RowsOk(db) && forall id :: SagaUse(db, id)
    ensures Total(OtherFlows(db)) == 0
  {
    forall id | id in OtherFlows(db) ensures OtherFlows(db)[id] == 0 { assert SagaUse(db, id); }
    TotalPadded(map[], OtherFlows(db));
  }

  /** With refunds in order and suspense used by the saga alone, the identity holds. */
  lemma OnlySagaMeansExact(db: BankDb)
    requires RowsOk(db) && RefundsOk(db) && forall id :: SagaUse(db, id)
    ensures BankOk(db)
  {
    SuspenseAccounting(db);
    NothingStranded(db);
    NothingElse(db);
  }

  // ----- the transactions keep the whole invariant ------------------------------------------

  lemma SameRefunds(db: BankDb, db': BankDb)
    requires RefundsOk(db) && db'.keys == db.keys && db'.interbank == db.interbank && db'.transfers == db.transfers
    ensures RefundsOk(db')
  {
    forall x ensures RefundOk(db', x) { assert RefundOk(db, x); }
  }

  lemma SameBank(db: BankDb, db': BankDb)
    requires BankOk(db) && RowsOk(db')
    requires db'.keys == db.keys && db'.interbank == db.interbank && db'.transfers == db.transfers
    ensures BankOk(db')
  {
    SameRefunds(db, db');
    forall id ensures SagaUse(db', id) { assert SagaUse(db, id); }
    OnlySagaMeansExact(db');
  }

  lemma OpenKeepsBankOk(db: BankDb, account: Uuid)
    requires BankOk(db)
    ensures BankOk(db.(accounts := db.accounts + {account}))
  {
    OpenKeepsRowsOk(db, account);
    SameBank(db, db.(accounts := db.accounts + {account}));
  }

  lemma PublishingKeepsBankOk(db: BankDb, published: set<nat>)
    requires BankOk(db)
    ensures BankOk(db.(published := published))
  {
    PublishingKeepsRowsOk(db, published);
    SameBank(db, db.(published := published));
  }

  lemma SagaRefundStays(db: BankDb, db': BankDb, c: Uuid)
    requires RowsOk(db) && SagaRefund(db, c)
    requires forall id :: id in db.transfers ==> id in db'.transfers && db'.transfers[id] == db.transfers[id]
    requires forall id :: id in db.interbank ==>
               && id in db'.interbank
               && (db.interbank[id].status == COMPENSATED ==> db'.interbank[id].status == COMPENSATED)
    ensures SagaRefund(db', c)
  {
  }

  /** Booking any transfer that does not touch suspense, under any free key. */
  lemma BookedKeepsBankOk(db: BankDb, id: Uuid, t: Transfer)
    requires BankOk(db) && RowFree(db, id, t) && ValidTransfer(t)
    requires t.payer != SUSPENSE && t.payee != SUSPENSE
    ensures BankOk(Booked(db, id, t))
  {
    var db' := Booked(db, id, t);
    BookedKeepsRowsOk(db, id, t);
    BookedKeepsRefundsOkIff(db, id, t);
    forall x ensures SagaUse(db', x) {
      assert SagaUse(db, x);
      if SagaRefund(db, x) { SagaRefundStays(db, db', x); }
    }
    OnlySagaMeansExact(db');
  }

  lemma DebitedKeepsBankOk(db: BankDb, id: Uuid, t: Transfer, payeeBank: BankId, payeeRef: string)
    requires BankOk(db) && RowFree(db, id, t) && ValidTransfer(t) && ValidRef(payeeRef)
    requires t.payee == SUSPENSE
    ensures BankOk(Debited(db, id, t, payeeBank, payeeRef))
  {
    var db' := Debited(db, id, t, payeeBank, payeeRef);
    assert RowOk(db, id);
    DebitedKeepsRowsOk(db, id, t, payeeBank, payeeRef);
    DebitedKeepsRefundsOk(db, id, t, payeeBank, payeeRef);
    forall x ensures SagaUse(db', x) {
      assert SagaUse(db, x);
      if SagaRefund(db, x) { SagaRefundStays(db, db', x); }
    }
    OnlySagaMeansExact(db');
  }

  lemma BankOkIsUnforged(db: BankDb)
    requires BankOk(db)
    ensures NoneForged(db)
    ensures forall id :: id in db.interbank && db.interbank[id].status == DEBITED ==> !Refunded(db, id)
  {
    forall c ensures Unforged(db, c) { assert SagaUse(db, c); }
    forall id | id in db.interbank && Refunded(db, id) ensures db.interbank[id].status != DEBITED {
      assert Unforged(db, db.keys[CompensationKey(id)]);
    }
  }

  lemma ConfirmedKeepsBankOk(db: BankDb, id: Uuid)
    requires BankOk(db)
    ensures BankOk(Confirmed(db, id))
  {
    var db' := Confirmed(db, id);
    MarkedKeepsRowsOk(db, id, CONFIRMED);
    BankOkIsUnforged(db);
    ConfirmedKeepsRefundsOkIff(db, id);
    forall x ensures SagaUse(db', x) {
      assert SagaUse(db, x);
      if SagaRefund(db, x) { SagaRefundStays(db, db', x); }
    }
    OnlySagaMeansExact(db');
  }

  lemma CompensatedKeepsSagaUse(db: BankDb, original: Uuid, id: Uuid, x: Uuid)
    requires BankOk(db) && original in db.interbank && original in db.transfers && id !in db.transfers
    requires CompensationSound(db, original)
    ensures SagaUse(Compensated(db, original, id), x)
  {
    var db' := Compensated(db, original, id);
    assert SagaUse(db, x) && RowOk(db, original) && RefundOk(db, original);
    if SagaRefund(db, x) { SagaRefundStays(db, db', x); }
  }

  /** Compensating keeps the invariant exactly when it is sound: no refund of a confirmed transfer
      under a free key, and no DEBITED one whose key a client took. */
  lemma CompensatedKeepsBankOkIff(db: BankDb, original: Uuid, id: Uuid)
    requires BankOk(db) && original in db.interbank && original in db.transfers && id !in db.transfers
    ensures BankOk(Compensated(db, original, id)) <==> CompensationSound(db, original)
  {
    var db' := Compensated(db, original, id);
    CompensatedKeepsRefundsOkIff(db, original, id);
    if CompensationSound(db, original) {
      CompensatedKeepsRowsOk(db, original, id);
      forall x ensures SagaUse(db', x) { CompensatedKeepsSagaUse(db, original, id, x); }
      OnlySagaMeansExact(db');
    }
  }

  // ----- no overdraft -----------------------------------------------------------------------

  lemma BookedKeepsNoOverdraft(db: BankDb, id: Uuid, t: Transfer)
    requires NoOverdraft(db) && 0 < t.amount && Covered(db, t)
    ensures NoOverdraft(Booked(db, id, t))
  {
    forall account | Checked(account) ensures BalanceOf(Booked(db, id, t).ledger, account) >= 0 {
      AppendMovement(db.ledger, id, t.payer, t.payee, t.amount, account, 0);
    }
  }

  /** A key names at most one committed transfer. */
  lemma KeysAreUnique(db: BankDb, c: Uuid, d: Uuid)
    requires RowsOk(db) && c in db.transfers && d in db.transfers && db.transfers[c].key == db.transfers[d].key
    ensures c == d
  {
    assert RowOk(db, c) && RowOk(db, d);
  }

  /** A transfer is compensated exactly when one refund of it exists, there is never a second
      one, and together they leave the payer where it was. */
  lemma CompensatedExactlyOnce(db: BankDb, id: Uuid)
    requires RowsOk(db) && RefundsOk(db) && NoneForged(db) && id in db.interbank
    ensures id in db.transfers
    ensures db.interbank[id].status == COMPENSATED <==> exists c :: IsRefundOf(db, c, id)
    ensures forall c :: IsRefundOf(db, c, id) ==> CompensationKey(id) in db.keys && c == db.keys[CompensationKey(id)]
    ensures forall c :: IsRefundOf(db, c, id) ==>
              && BalanceOf(EntriesFor(db.ledger, id) + EntriesFor(db.ledger, c), db.transfers[id].payer) == 0
              && BalanceOf(EntriesFor(db.ledger, id) + EntriesFor(db.ledger, c), SUSPENSE) == 0
  {
    assert RowOk(db, id) && RefundOk(db, id);
    RefundedIffRowExists(db, id);
    forall c | IsRefundOf(db, c, id)
      ensures db.interbank[id].status != DEBITED
      ensures BalanceOf(EntriesFor(db.ledger, id) + EntriesFor(db.ledger, c), db.transfers[id].payer) == 0
      ensures BalanceOf(EntriesFor(db.ledger, id) + EntriesFor(db.ledger, c), SUSPENSE) == 0
    {
      assert Unforged(db, c);
      RefundCancels(db, id, c);
    }
  }

  /** A debit and its refund cancel at both accounts. */
  lemma RefundCancels(db: BankDb, id: Uuid, c: Uuid)
    requires RowOk(db, id) && id in db.interbank && IsRefundOf(db, c, id) && RowsOk(db)
    ensures BalanceOf(EntriesFor(db.ledger, id) + EntriesFor(db.ledger, c), db.transfers[id].payer) == 0
    ensures BalanceOf(EntriesFor(db.ledger, id) + EntriesFor(db.ledger, c), SUSPENSE) == 0
  {
    assert RowOk(db, c);
    var t, debit := db.transfers[id], EntriesFor(db.ledger, id);
    assert debit == [] + Movement(id, t.payer, SUSPENSE, t.amount);
    AppendMovement([], id, t.payer, SUSPENSE, t.amount, t.payer, 0);
    AppendMovement([], id, t.payer, SUSPENSE, t.amount, SUSPENSE, 0);
    AppendMovement(debit, c, SUSPENSE, t.payer, t.amount, t.payer, 0);
    AppendMovement(debit, c, SUSPENSE, t.payer, t.amount, SUSPENSE, 0);
  }
}
