/**
 The Hub's tables and its transactions as functions on them, with the
 invariant that ties reserves, settlements and events together.
 */
module HubModel {
  import opened Prelude
  import opened Totals
  import opened Ledger
  import opened Outbox

  datatype Status = PENDING | CONFIRMED | REVERSED | REJECTED

  /** What a payer bank can be told. */
  type Verdict = s: Status | s != PENDING witness CONFIRMED

  /** What a payee bank can reply. */
  type Answer = s: Status | s == CONFIRMED || s == REVERSED witness CONFIRMED

  datatype Request = Request(id: Uuid, payer: BankId, payee: BankId, accountRef: string, amount: int)

  datatype Reply = Reply(id: Uuid, answer: Answer, reason: Option<string>)

  datatype Settlement = Settlement(payer: BankId, payee: BankId, accountRef: string, amount: int,
                                   status: Status, rejectReason: Option<string>)

  /** Outbox payloads; the bank named first is the suffix of the routing key. */
  datatype Event =
    | Notify(payeeBank: BankId, payer: BankId, accountRef: string, amount: int)
    | Outcome(payerBank: BankId, verdict: Verdict, reason: Option<string>)

  datatype HubDb = HubDb(
    banks: set<BankId>,
    settlements: map<Uuid, Settlement>,
    ledger: seq<Entry<BankId>>,
    outbox: seq<Row<Event>>,
    published: set<nat>)

  const EMPTY_HUB := HubDb({}, map[], [], [], {})

  const UNKNOWN_PAYEE_BANK := "UNKNOWN_PAYEE_BANK"
  const REJECTED_BY_PAYEE_BANK := "REJECTED_BY_PAYEE_BANK"

  // ----- settlement.requested ---------------------------------------------------------------

  /** The CHECK constraints of the settlements table. */
  predicate RowChecks(r: Request) {
    && r.payer != r.payee
    && 0 < r.amount <= MAX_BIGINT
    && 1 <= |r.payee| <= 64
    && 1 <= |r.accountRef| <= 255
  }

  /** When handling a request does not throw. `known` is what the directory lookup, made before
      the transaction, answered for the payee bank. */
  predicate Acceptable(db: HubDb, r: Request, known: bool) {
    && RowChecks(r)
    && (known ==> IsSafeInteger(r.amount))
    && (r.id !in db.settlements ==> r.payer in db.banks)
  }

  /** Which requests do not make the call throw: two different banks, a positive amount that is a
      safe integer if the payee bank is known and fits the column in any case, texts of the
      lengths the columns take, and, unless the settlement exists, a registered payer bank. */
  lemma AcceptableMeans(db: HubDb, r: Request, known: bool)
    ensures Acceptable(db, r, known) <==>
            && r.payer != r.payee
            && 0 < r.amount <= (if known then 9007199254740991 else 9223372036854775807)
            && 1 <= |r.payee| <= 64 && 1 <= |r.accountRef| <= 255
            && (r.payer in db.banks || r.id in db.settlements)
  {
  }

  function RowFor(r: Request, known: bool): Settlement {
    if known then Settlement(r.payer, r.payee, r.accountRef, r.amount, PENDING, None)
    else Settlement(r.payer, r.payee, r.accountRef, r.amount, REJECTED, Some(UNKNOWN_PAYEE_BANK))
  }

  function EventFor(r: Request, known: bool): Event {
    if known then Notify(r.payee, r.payer, r.accountRef, r.amount)
    else Outcome(r.payer, REJECTED, Some(UNKNOWN_PAYEE_BANK))
  }

  /** The tables after one `handleRequested`, whether it commits or rolls back. */
  function Requested(db: HubDb, r: Request, known: bool): HubDb {
    if !Acceptable(db, r, known) || r.id in db.settlements then db
    else db.(
      settlements := db.settlements[r.id := RowFor(r, known)],
      ledger := if known then db.ledger + Movement(r.id, r.payer, r.payee, r.amount) else db.ledger,
      outbox := db.outbox + [Row(r.id, EventFor(r, known))])
  }

  // ----- settlement.reply -------------------------------------------------------------------

  function ReasonOf(r: Reply): string {
    if r.reason.Some? then r.reason.value else REJECTED_BY_PAYEE_BANK
  }

  /** Two versions of a settlement that differ at most in its status. */
  predicate SameTerms(s: Settlement, t: Settlement) {
    s.payer == t.payer && s.payee == t.payee && s.accountRef == t.accountRef && s.amount == t.amount
  }

  function Marked(s: Settlement, r: Reply): Settlement {
    if s.status != PENDING then s
    else if r.answer == CONFIRMED then s.(status := CONFIRMED)
    else s.(status := REVERSED, rejectReason := Some(ReasonOf(r)))
  }

  /** The transaction of `handleReply`: the status is not read again inside it, so only the
      status change is guarded; the reserve entries and the event are written regardless. */
  function Replied(db: HubDb, r: Reply): HubDb
    requires r.id in db.settlements
  {
    var s := db.settlements[r.id];
    db.(
      settlements := db.settlements[r.id := Marked(s, r)],
      ledger := if r.answer == CONFIRMED then db.ledger
                else db.ledger + Movement(r.id, s.payer, s.payee, -s.amount),
      outbox := db.outbox + [Row(r.id, Outcome(s.payer, r.answer, r.reason))])
  }

  // ----- the invariant ----------------------------------------------------------------------

  /** A settlement that moves reserves. */
  predicate Holds(s: Settlement) {
    s.status == PENDING || s.status == CONFIRMED
  }

  /** What one settlement contributes to a bank's reserve: incoming minus outgoing. */
  function Contribution(s: Settlement, bank: BankId): int {
    if !Holds(s) then 0
    else (if s.payee == bank then s.amount else 0) - (if s.payer == bank then s.amount else 0)
  }

  function Contributions(settlements: map<Uuid, Settlement>, bank: BankId): map<Uuid, int> {
    map id | id in settlements :: Contribution(settlements[id], bank)
  }

  ghost function NetReserve(settlements: map<Uuid, Settlement>, bank: BankId): int {
    Total(Contributions(settlements, bank))
  }

  predicate SettlementOk(s: Settlement, banks: set<BankId>) {
    && 0 < s.amount && s.payer != s.payee && s.payer in banks
    && (s.status != REJECTED ==> IsSafeInteger(s.amount) && s.payee in banks)
    && (s.status == REJECTED || s.status == REVERSED <==> s.rejectReason.Some?)
    && (s.status == REJECTED ==> s.rejectReason == Some(UNKNOWN_PAYEE_BANK))
  }

  /** The ledger entries a settlement's status accounts for. */
  function EntriesDue(id: Uuid, s: Settlement): seq<Entry<BankId>> {
    match s.status
    case PENDING | CONFIRMED => Movement(id, s.payer, s.payee, s.amount)
    case REVERSED => Movement(id, s.payer, s.payee, s.amount) + Movement(id, s.payer, s.payee, -s.amount)
    case REJECTED => []
  }

  /** The events a settlement's status accounts for: one notification when it was accepted,
      then one outcome, naming the status, when it is terminal. */
  predicate EventsDue(rows: seq<Row<Event>>, id: Uuid, s: Settlement) {
    var notified := [Row(id, Notify(s.payee, s.payer, s.accountRef, s.amount))];
    match s.status
    case PENDING => rows == notified
    case REJECTED => rows == [Row(id, Outcome(s.payer, REJECTED, s.rejectReason))]
    case CONFIRMED =>
      && |rows| == 2 && rows[..1] == notified && rows[1].payload.Outcome?
      && rows[1] == Row(id, Outcome(s.payer, CONFIRMED, rows[1].payload.reason))
    case REVERSED =>
      && |rows| == 2 && rows[..1] == notified && rows[1].payload.Outcome?
      && rows[1] == Row(id, Outcome(s.payer, REVERSED, rows[1].payload.reason))
      && s.rejectReason ==
         if rows[1].payload.reason.Some? then rows[1].payload.reason else Some(REJECTED_BY_PAYEE_BANK)
  }

  ghost predicate SettlementsOk(db: HubDb) {
    forall id :: id in db.settlements ==> SettlementOk(db.settlements[id], db.banks)
  }

  ghost predicate LedgerOk(db: HubDb) {
    forall id ::
      EntriesFor(db.ledger, id) == if id in db.settlements then EntriesDue(id, db.settlements[id]) else []
  }

  /** Every reserve is what the PENDING and CONFIRMED settlements alone say it is. */
  ghost predicate ReservesOk(db: HubDb) {
    forall bank :: BalanceOf(db.ledger, bank) == NetReserve(db.settlements, bank)
  }

  ghost predicate EventsOk(db: HubDb) {
    forall id ::
      var rows := RowsFor(db.outbox, id);
      if id in db.settlements then EventsDue(rows, id, db.settlements[id]) else rows == []
  }

  ghost predicate HubOk(db: HubDb) {
    SettlementsOk(db) && LedgerOk(db) && ReservesOk(db) && EventsOk(db)
  }

  lemma EmptyHubOk()
    ensures HubOk(EMPTY_HUB)
  {
    forall bank ensures NetReserve(EMPTY_HUB.settlements, bank) == 0 {
      assert Contributions(EMPTY_HUB.settlements, bank) == map[];
    }
  }

  // ----- the transactions keep it -----------------------------------------------------------

  lemma PutSettlement(settlements: map<Uuid, Settlement>, id: Uuid, s: Settlement, bank: BankId)
    ensures NetReserve(settlements[id := s], bank) ==
            NetReserve(settlements, bank) + Contribution(s, bank)
            - (if id in settlements then Contribution(settlements[id], bank) else 0)
  {
    TotalUpdate(Contributions(settlements, bank), id, Contribution(s, bank));
    assert Contributions(settlements[id := s], bank) == Contributions(settlements, bank)[id := Contribution(s, bank)];
  }

  lemma RegisterKeepsHubOk(db: HubDb, bank: BankId)
    requires HubOk(db)
    ensures HubOk(db.(banks := db.banks + {bank}))
  {
    var db' := db.(banks := db.banks + {bank});
    assert forall id {:trigger db.settlements[id]} ::
      id in db.settlements ==> SettlementOk(db.settlements[id], db.banks);
    assert LedgerOk(db') && ReservesOk(db') && EventsOk(db');
  }

  /** One settlement's share of the invariant, without the reserves. */
  ghost predicate SettledOk(db: HubDb, id: Uuid) {
    var entries, rows := EntriesFor(db.ledger, id), RowsFor(db.outbox, id);
    if id in db.settlements then
      var s := db.settlements[id];
      SettlementOk(s, db.banks) && entries == EntriesDue(id, s) && EventsDue(rows, id, s)
    else
      entries == [] && rows == []
  }

  lemma HubOkByParts(db: HubDb)
    requires ReservesOk(db) && forall id :: SettledOk(db, id)
    ensures HubOk(db)
  {
    forall id ensures EntriesFor(db.ledger, id) ==
                      if id in db.settlements then EntriesDue(id, db.settlements[id]) else [] {
      assert SettledOk(db, id);
    }
    forall id ensures id in db.settlements ==> SettlementOk(db.settlements[id], db.banks) {
      assert SettledOk(db, id);
    }
    forall id ensures var rows := RowsFor(db.outbox, id);
                      if id in db.settlements then EventsDue(rows, id, db.settlements[id]) else rows == [] {
      assert SettledOk(db, id);
    }
  }

  lemma RequestedEntries(db: HubDb, r: Request, known: bool, id: Uuid)
    requires r.id !in db.settlements && Acceptable(db, r, known)
    ensures EntriesFor(Requested(db, r, known).ledger, id) == EntriesFor(db.ledger, id) +
            (if id == r.id && known then Movement(id, r.payer, r.payee, r.amount) else [])
  {
    AppendMovement(db.ledger, r.id, r.payer, r.payee, r.amount, "", id);
    assert EntriesFor(db.ledger, id) + [] == EntriesFor(db.ledger, id);
  }

  lemma RequestedRows(db: HubDb, r: Request, known: bool, id: Uuid)
    requires r.id !in db.settlements && Acceptable(db, r, known)
    ensures RowsFor(Requested(db, r, known).outbox, id) == RowsFor(db.outbox, id) +
            (if id == r.id then [Row(id, EventFor(r, known))] else [])
  {
    RowsPush(db.outbox, Row(r.id, EventFor(r, known)), id);
    assert RowsFor(db.outbox, id) + [] == RowsFor(db.outbox, id);
  }

  lemma RequestedKeepsSettledOk(db: HubDb, r: Request, known: bool, id: Uuid)
    requires SettledOk(db, id) && (known ==> r.payee in db.banks)
    requires r.id !in db.settlements && Acceptable(db, r, known)
    ensures SettledOk(Requested(db, r, known), id)
  {
    RequestedEntries(db, r, known, id);
    RequestedRows(db, r, known, id);
  }

  lemma RequestedKeepsReserves(db: HubDb, r: Request, known: bool)
    requires ReservesOk(db)
    ensures ReservesOk(Requested(db, r, known))
  {
    var db' := Requested(db, r, known);
    if db' != db {
      forall bank ensures BalanceOf(db'.ledger, bank) == NetReserve(db'.settlements, bank) {
        AppendMovement(db.ledger, r.id, r.payer, r.payee, r.amount, bank, 0);
        PutSettlement(db.settlements, r.id, RowFor(r, known), bank);
      }
    }
  }

  lemma RequestedKeepsHubOk(db: HubDb, r: Request, known: bool)
    requires HubOk(db) && (known ==> r.payee in db.banks)
    ensures HubOk(Requested(db, r, known))
    ensures r.id !in db.settlements && Acceptable(db, r, known) ==>
              && r.id in Requested(db, r, known).settlements
              && var s := Requested(db, r, known).settlements[r.id];
                 && s.payer == r.payer && s.payee == r.payee && s.accountRef == r.accountRef && s.amount == r.amount
                 && s.status == if known then PENDING else REJECTED
  {
    var db' := Requested(db, r, known);
    RequestedKeepsReserves(db, r, known);
    if r.id !in db.settlements && Acceptable(db, r, known) {
      forall id ensures SettledOk(db', id) {
        assert SettledOk(db, id);
        RequestedKeepsSettledOk(db, r, known, id);
      }
      HubOkByParts(db');
    }
  }

  lemma RepliedEntries(db: HubDb, r: Reply, id: Uuid)
    requires r.id in db.settlements
    ensures var s := db.settlements[r.id];
            EntriesFor(Replied(db, r).ledger, id) == EntriesFor(db.ledger, id) +
            (if id == r.id && r.answer == REVERSED then Movement(id, s.payer, s.payee, -s.amount) else [])
  {
    var s := db.settlements[r.id];
    AppendMovement(db.ledger, r.id, s.payer, s.payee, -s.amount, "", id);
    assert EntriesFor(db.ledger, id) + [] == EntriesFor(db.ledger, id);
  }

  lemma RepliedRows(db: HubDb, r: Reply, id: Uuid)
    requires r.id in db.settlements
    ensures RowsFor(Replied(db, r).outbox, id) == RowsFor(db.outbox, id) +
            (if id == r.id then [Row(id, Outcome(db.settlements[r.id].payer, r.answer, r.reason))] else [])
  {
    RowsPush(db.outbox, Row(r.id, Outcome(db.settlements[r.id].payer, r.answer, r.reason)), id);
    assert RowsFor(db.outbox, id) + [] == RowsFor(db.outbox, id);
  }

  lemma RepliedKeepsSettledOk(db: HubDb, r: Reply, id: Uuid)
    requires SettledOk(db, id)
    requires r.id in db.settlements && db.settlements[r.id].status == PENDING
    ensures SettledOk(Replied(db, r), id)
  {
    RepliedEntries(db, r, id);
    RepliedRows(db, r, id);
  }

  lemma RepliedMovesReserves(db: HubDb, r: Reply, bank: BankId)
    requires r.id in db.settlements
    ensures var s := db.settlements[r.id];
            && BalanceOf(Replied(db, r).ledger, bank) == BalanceOf(db.ledger, bank)
               + (if r.answer == CONFIRMED then 0
                  else (if s.payer == bank then s.amount else 0) - (if s.payee == bank then s.amount else 0))
            && NetReserve(Replied(db, r).settlements, bank) == NetReserve(db.settlements, bank)
               + Contribution(Marked(s, r), bank) - Contribution(s, bank)
  {
    var s := db.settlements[r.id];
    AppendMovement(db.ledger, r.id, s.payer, s.payee, -s.amount, bank, 0);
    PutSettlement(db.settlements, r.id, Marked(s, r), bank);
  }

  /** Committing a reply against a row that is still PENDING settles it as answered and keeps
      the whole invariant. */
  lemma ReplyOnPendingKeepsHubOk(db: HubDb, r: Reply)
    requires HubOk(db) && r.id in db.settlements && db.settlements[r.id].status == PENDING
    ensures HubOk(Replied(db, r))
    ensures Replied(db, r).settlements[r.id].status == r.answer
    ensures SameTerms(Replied(db, r).settlements[r.id], db.settlements[r.id])
    ensures Replied(db, r).settlements[r.id].rejectReason ==
            if r.answer == CONFIRMED then None
            else if r.reason.Some? then r.reason
            else Some("REJECTED_BY_PAYEE_BANK")
  {
    assert SettlementOk(db.settlements[r.id], db.banks);
    var db' := Replied(db, r);
    forall id ensures SettledOk(db', id) {
      assert SettledOk(db, id);
      RepliedKeepsSettledOk(db, r, id);
    }
    forall bank ensures BalanceOf(db'.ledger, bank) == NetReserve(db'.settlements, bank) {
      RepliedMovesReserves(db, r, bank);
    }
    HubOkByParts(db');
  }

  /** Exactly when a stale reply handler is harmless: the row must still be PENDING when it
      commits. Reserves alone also survive a late CONFIRMED; nothing else does. */
  lemma ReplyKeepsHubOkIff(db: HubDb, r: Reply)
    requires HubOk(db) && r.id in db.settlements
    ensures HubOk(Replied(db, r)) <==> db.settlements[r.id].status == PENDING
    ensures ReservesOk(Replied(db, r)) <==> db.settlements[r.id].status == PENDING || r.answer == CONFIRMED
  {
    var db', s := Replied(db, r), db.settlements[r.id];
    if s.status == PENDING {
      ReplyOnPendingKeepsHubOk(db, r);
    } else {
      RowsPush(db.outbox, Row(r.id, Outcome(s.payer, r.answer, r.reason)), r.id);
      assert db'.settlements == db.settlements;
      if r.answer == REVERSED {
        RepliedMovesReserves(db, r, s.payer);
      }
    }
  }
}
