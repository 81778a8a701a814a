/**
 Bank A as a concurrent machine: every transaction is one step, and any number of calls of the
 reply handler are between their status read and their commit.
 */
module BankARuns {
  import opened Prelude
  import opened Ledger
  import opened BankAModel
  import HubModel
  import Totals

  datatype Outcome = Outcome(id: Uuid, verdict: HubModel.Verdict)

  /** `handlers` are the calls of `handle` that have seen DEBITED and not yet committed. */
  datatype Bank = Bank(db: BankDb, handlers: multiset<Outcome>)

  datatype Action =
    | OpenAccount(account: Uuid)
    | Local(id: Uuid, transfer: Transfer)
    | DevSeed(id: Uuid, account: Uuid, amount: int)
    | Interbank(id: Uuid, transfer: Transfer, payeeBank: BankId, payeeRef: string)
    | Read(outcome: Outcome)
    | Confirm(outcome: Outcome)
    | Compensate(outcome: Outcome, id: Uuid)
    | Crash(outcome: Outcome)
    | MarkPublished(row: nat)

  function Seed(id: Uuid, account: Uuid, amount: int): Transfer {
    BankAModel.Transfer(DevSeedKey(id), DEV_TREASURY, account, amount)
  }

  predicate Enabled(b: Bank, a: Action) {
    match a
    case OpenAccount(_) => true
    case Local(id, t) => ValidTransfer(t) && RowFree(b.db, id, t) && Covered(b.db, t)
    case DevSeed(id, account, amount) =>
      ValidTransfer(Seed(id, account, amount)) && RowFree(b.db, id, Seed(id, account, amount))
    case Interbank(id, t, payeeBank, payeeRef) =>
      && ValidTransfer(t) && RowFree(b.db, id, t) && Covered(b.db, t)
      && t.payee == SUSPENSE && ValidRef(payeeRef)
    case Read(o) => o.id in b.db.interbank && b.db.interbank[o.id].status == DEBITED
    case Confirm(o) => o in b.handlers && o.verdict == HubModel.CONFIRMED
    case Compensate(o, id) =>
      o in b.handlers && o.verdict != HubModel.CONFIRMED && o.id in b.db.transfers && id !in b.db.transfers
    case Crash(o) => o in b.handlers
    case MarkPublished(row) => row < |b.db.outbox|
  }

  function Do(b: Bank, a: Action): Bank
    requires Enabled(b, a)
  {
    match a
    case OpenAccount(account) => b.(db := b.db.(accounts := b.db.accounts + {account}))
    case Local(id, t) => b.(db := Booked(b.db, id, t))
    case DevSeed(id, account, amount) => b.(db := Booked(b.db, id, Seed(id, account, amount)))
    case Interbank(id, t, payeeBank, payeeRef) => b.(db := Debited(b.db, id, t, payeeBank, payeeRef))
    case Read(o) => b.(handlers := b.handlers + multiset{o})
    case Confirm(o) => Bank(Confirmed(b.db, o.id), b.handlers - multiset{o})
    case Compensate(o, id) => Bank(Compensated(b.db, o.id, id), b.handlers - multiset{o})
    case Crash(o) => b.(handlers := b.handlers - multiset{o})
    case MarkPublished(row) => b.(db := b.db.(published := b.db.published + {row}))
  }

  /** The assumption about the suspense account: only the saga moves money through it. */
  predicate LeavesSuspenseAlone(a: Action) {
    && (a.Local? ==> a.transfer.payer != SUSPENSE && a.transfer.payee != SUSPENSE)
    && (a.DevSeed? ==> a.account != SUSPENSE)
  }

  /** The assumption about the key space: no client sends a text that spells a compensation key. */
  predicate SparesKeys(a: Action) {
    a.Local? || a.Interbank? ==> !a.transfer.key.CompensationKey?
  }

  /** A client pays out of suspense under a compensation key, as only a reversal should. */
  predicate Forges(a: Action) {
    a.Local? && a.transfer.payer == SUSPENSE && a.transfer.key.CompensationKey?
  }

  predicate Legal(b: Bank, run: seq<Action>)
    decreases |run|
  {
    run == [] || (Enabled(b, run[0]) && Legal(Do(b, run[0]), run[1..]))
  }

  function After(b: Bank, run: seq<Action>): Bank
    requires Legal(b, run)
    decreases |run|
  {
    if run == [] then b else After(Do(b, run[0]), run[1..])
  }

  predicate SuspenseLeftAlone(run: seq<Action>) {
    forall i :: 0 <= i < |run| ==> LeavesSuspenseAlone(run[i])
  }

  predicate KeysSpared(run: seq<Action>) {
    forall i :: 0 <= i < |run| ==> SparesKeys(run[i])
  }

  predicate NothingForged(run: seq<Action>) {
    forall i :: 0 <= i < |run| ==> !Forges(run[i])
  }

  const START := Bank(EMPTY_BANK, multiset{})

  lemma LegalCons(b: Bank, a: Action, rest: seq<Action>)
    requires Enabled(b, a) && Legal(Do(b, a), rest)
    ensures Legal(b, [a] + rest) && After(b, [a] + rest) == After(Do(b, a), rest)
  {
    assert ([a] + rest)[1..] == rest;
  }

  lemma {:induction false} LegalConcat(b: Bank, first: seq<Action>, rest: seq<Action>)
    requires Legal(b, first) && Legal(After(b, first), rest)
    ensures Legal(b, first + rest) && After(b, first + rest) == After(After(b, first), rest)
    decreases |first|
  {
    if first == [] {
      assert first + rest == rest;
    } else {
      LegalConcat(Do(b, first[0]), first[1..], rest);
      LegalCons(b, first[0], first[1..] + rest);
      ConcatTail(first, rest);
    }
  }

  /** A booking, and then an uninterrupted compensation. */
  lemma BookThenCompensate(b: Bank, booking: Action, o: Outcome, refund: Uuid)
    requires Enabled(b, booking) && Enabled(Do(b, booking), Read(o)) && o.verdict != HubModel.CONFIRMED
    requires o.id in Do(b, booking).db.transfers && refund !in Do(b, booking).db.transfers
    ensures var run := [booking, Read(o), Compensate(o, refund)];
            Legal(b, run) && After(b, run).db == Compensated(Do(b, booking).db, o.id, refund)
  {
    var booked := Do(b, booking);
    var read := Do(booked, Read(o));
    LegalCons(read, Compensate(o, refund), []);
    LegalCons(booked, Read(o), [Compensate(o, refund)]);
    LegalCons(b, booking, [Read(o), Compensate(o, refund)]);
    assert [booking] + [Read(o), Compensate(o, refund)] == [booking, Read(o), Compensate(o, refund)];
  }

  /** An uninterrupted confirmation. */
  lemma ConfirmationRuns(b: Bank, o: Outcome)
    requires Enabled(b, Read(o)) && o.verdict == HubModel.CONFIRMED
    ensures Legal(b, [Read(o), Confirm(o)]) && After(b, [Read(o), Confirm(o)]) == b.(db := Confirmed(b.db, o.id))
  {
    var read := Do(b, Read(o));
    LegalCons(read, Confirm(o), []);
    LegalCons(b, Read(o), [Confirm(o)]);
    assert Do(read, Confirm(o)).handlers == b.handlers;
  }

  // ----- what needs no assumption -----------------------------------------------------------

  predicate HandlersKnown(b: Bank) {
    forall o :: o in b.handlers ==> o.id in b.db.interbank
  }

  ghost predicate RowsInv(b: Bank) {
    RowsOk(b.db) && NoOverdraft(b.db) && HandlersKnown(b)
  }

  lemma StepKeepsRowsOk(b: Bank, a: Action)
    requires RowsOk(b.db) && HandlersKnown(b) && Enabled(b, a)
    ensures RowsOk(Do(b, a).db) && HandlersKnown(Do(b, a))
  {
    match a
    case OpenAccount(account) => OpenKeepsRowsOk(b.db, account);
    case Local(id, t) => BookedKeepsRowsOk(b.db, id, t);
    case DevSeed(id, account, amount) => BookedKeepsRowsOk(b.db, id, Seed(id, account, amount));
    case Interbank(id, t, payeeBank, payeeRef) => DebitedKeepsRowsOk(b.db, id, t, payeeBank, payeeRef);
    case Confirm(o) => MarkedKeepsRowsOk(b.db, o.id, CONFIRMED);
    case Compensate(o, id) => CompensatedKeepsRowsOk(b.db, o.id, id);
    case MarkPublished(row) => PublishingKeepsRowsOk(b.db, b.db.published + {row});
    case _ =>
  }

  lemma StepKeepsNoOverdraft(b: Bank, a: Action)
    requires NoOverdraft(b.db) && Enabled(b, a)
    requires a.Compensate? ==> 0 < b.db.transfers[a.outcome.id].amount
    ensures NoOverdraft(Do(b, a).db)
  {
    match a
    case Local(id, t) => BookedKeepsNoOverdraft(b.db, id, t);
    case DevSeed(id, account, amount) => BookedKeepsNoOverdraft(b.db, id, Seed(id, account, amount));
    case Interbank(id, t, _, _) => BookedKeepsNoOverdraft(b.db, id, t);
    case Compensate(o, id) => BookedKeepsNoOverdraft(b.db, id, Reversal(b.db, o.id));
    case _ =>
  }

  /** Ledger and outbox only grow, transfers and their keys are immutable, a saga row comes with
      its transfer, and a terminal status is final. */
  ghost predicate Extends(now: BankDb, later: BankDb) {
    && now.ledger <= later.ledger
    && now.outbox <= later.outbox
    && now.published <= later.published
    && (forall id :: id in now.transfers ==> id in later.transfers && later.transfers[id] == now.transfers[id])
    && (forall key :: key in now.keys ==> key in later.keys && later.keys[key] == now.keys[key])
    && (forall id :: id in now.transfers && id in later.interbank ==> id in now.interbank)
    && (forall id :: id in now.interbank ==>
          && id in later.interbank
          && var b, c := now.interbank[id], later.interbank[id];
             c == b.(status := c.status) && (b.status != DEBITED ==> c.status == b.status))
  }

  lemma BookedExtends(db: BankDb, id: Uuid, t: Transfer)
    requires id !in db.transfers && t.key !in db.keys
    ensures Extends(db, Booked(db, id, t))
  {
  }

  lemma MarkedExtends(db: BankDb, id: Uuid, status: Status)
    ensures Extends(db, db.(interbank := Marked(db.interbank, id, status)))
  {
  }

  lemma StepExtends(b: Bank, a: Action)
    requires Enabled(b, a)
    requires a.Interbank? ==> a.id !in b.db.interbank
    ensures Extends(b.db, Do(b, a).db)
  {
    match a
    case Local(id, t) => BookedExtends(b.db, id, t);
    case DevSeed(id, account, amount) => BookedExtends(b.db, id, Seed(id, account, amount));
    case Interbank(id, t, _, _) => BookedExtends(b.db, id, t);
    case Confirm(o) => MarkedExtends(b.db, o.id, CONFIRMED);
    case Compensate(o, id) =>
      if CompensationKey(o.id) !in b.db.keys { BookedExtends(b.db, id, Reversal(b.db, o.id)); }
      MarkedExtends(b.db, o.id, COMPENSATED);
    case _ =>
  }

  lemma StepKeepsRowsInv(b: Bank, a: Action)
    requires RowsInv(b) && Enabled(b, a)
    ensures RowsInv(Do(b, a)) && Extends(b.db, Do(b, a).db)
  {
    if a.Compensate? {
      assert RowOk(b.db, a.outcome.id);
    } else if a.Interbank? {
      assert RowOk(b.db, a.id);
    }
    StepKeepsRowsOk(b, a);
    StepKeepsNoOverdraft(b, a);
    StepExtends(b, a);
  }

  /** Whatever callers name, whatever outcomes arrive and however handlers interleave, the rows
      of every transfer stay complete, nothing recorded is rewritten, a terminal status is
      final, and no checked account is overdrawn. */
  lemma {:induction false} AnyRunKeepsBooks(b: Bank, run: seq<Action>)
    requires RowsInv(b) && Legal(b, run)
    ensures RowsInv(After(b, run)) && Extends(b.db, After(b, run).db)
    ensures var now, later := b.db, After(b, run).db;
            && now.ledger <= later.ledger && now.outbox <= later.outbox
            && (forall x :: x in now.transfers ==> x in later.transfers && later.transfers[x] == now.transfers[x])
            && (forall x :: x in now.interbank ==>
                  && x in later.interbank
                  && later.interbank[x].payeeBank == now.interbank[x].payeeBank
                  && later.interbank[x].payeeRef == now.interbank[x].payeeRef
                  && (now.interbank[x].status != DEBITED ==> later.interbank[x] == now.interbank[x]))
    decreases |run|
  {
    if run != [] {
      StepKeepsRowsInv(b, run[0]);
      AnyRunKeepsBooks(Do(b, run[0]), run[1..]);
    }
  }

  /** No run overdraws an account other than suspense and the treasury: not with transfers that
      name suspense, nor with outcomes that contradict each other. */
  lemma NoOverdraftInAnyRun(run: seq<Action>, account: Uuid)
    requires Legal(START, run) && account != SUSPENSE && account != DEV_TREASURY
    ensures 0 <= BalanceOf(After(START, run).db.ledger, account)
  {
    EmptyBankOk();
    AnyRunKeepsBooks(START, run);
  }

  // ----- refunds and statuses, with stale reads and any keys --------------------------------

  /** What a step must not do to keep refunds and statuses together. */
  predicate Sound(b: Bank, a: Action) {
    match a
    case Local(_, t) => BookingSound(b.db, t)
    case Confirm(o) => ConfirmationSound(b.db, o.id)
    case Compensate(o, _) => o.id in b.db.interbank ==> CompensationSound(b.db, o.id)
    case _ => true
  }

  predicate SoundRun(b: Bank, run: seq<Action>)
    requires Legal(b, run)
    decreases |run|
  {
    run == [] || (Sound(b, run[0]) && SoundRun(Do(b, run[0]), run[1..]))
  }

  lemma SoundCons(b: Bank, a: Action, rest: seq<Action>)
    requires Enabled(b, a) && Sound(b, a) && Legal(Do(b, a), rest) && SoundRun(Do(b, a), rest)
    ensures Legal(b, [a] + rest) && SoundRun(b, [a] + rest)
  {
    assert ([a] + rest)[1..] == rest;
  }

  lemma StepKeepsRefundsOkIff(b: Bank, a: Action)
    requires RowsInv(b) && RefundsOk(b.db) && Enabled(b, a)
    ensures RefundsOk(Do(b, a).db) <==> Sound(b, a)
  {
    match a {
      case Local(id, t) => BookedKeepsRefundsOkIff(b.db, id, t);
      case DevSeed(id, account, amount) => BookedKeepsRefundsOkIff(b.db, id, Seed(id, account, amount));
      case Interbank(id, t, payeeBank, payeeRef) => DebitedKeepsRefundsOk(b.db, id, t, payeeBank, payeeRef);
      case Confirm(o) => ConfirmedKeepsRefundsOkIff(b.db, o.id);
      case Compensate(o, id) => CompensatedKeepsRefundsOkIff(b.db, o.id, id);
      case _ => SameRefunds(b.db, Do(b, a).db);
    }
  }

  /** A compensated transfer whose key another row holds, or a confirmed one that is refunded. */
  predicate Wrong(db: BankDb, id: Uuid) {
    id in db.interbank &&
    ((db.interbank[id].status == COMPENSATED && CompensationKey(id) in db.keys && !Refunded(db, id))
     || (db.interbank[id].status == CONFIRMED && Refunded(db, id)))
  }

  lemma WrongIsFinal(b: Bank, run: seq<Action>, id: Uuid)
    requires RowsInv(b) && Legal(b, run) && Wrong(b.db, id)
    ensures !RefundsOk(After(b, run).db)
  {
    AnyRunKeepsBooks(b, run);
    assert RowOk(b.db, id) && KeyOk(b.db, CompensationKey(id));
    assert !RefundOk(After(b, run).db, id);
  }

  lemma UnsoundStepIsWrong(b: Bank, a: Action) returns (id: Uuid)
    requires RowsInv(b) && Enabled(b, a) && !Sound(b, a)
    ensures Wrong(Do(b, a).db, id)
  {
    id := if a.Local? then a.transfer.key.transfer else a.outcome.id;
    assert RowOk(b.db, id) && KeyOk(b.db, CompensationKey(id));
  }

  /** In every legal run, whatever accounts and keys callers name: compensated transfers are
      refunded and confirmed ones are not if and only if every step is sound. */
  lemma {:induction false} RunKeepsRefundsIff(b: Bank, run: seq<Action>)
    requires RowsInv(b) && RefundsOk(b.db) && Legal(b, run)
    ensures RefundsOk(After(b, run).db) <==> SoundRun(b, run)
    decreases |run|
  {
    if run != [] {
      var b' := Do(b, run[0]);
      StepKeepsRowsInv(b, run[0]);
      StepKeepsRefundsOkIff(b, run[0]);
      if Sound(b, run[0]) {
        RunKeepsRefundsIff(b', run[1..]);
      } else {
        var id := UnsoundStepIsWrong(b, run[0]);
        WrongIsFinal(b', run[1..], id);
      }
    }
  }

  lemma StepKeepsNoneForged(b: Bank, a: Action)
    requires RowsInv(b) && NoneForged(b.db) && Enabled(b, a) && !Forges(a)
    ensures NoneForged(Do(b, a).db)
  {
    forall c ensures Unforged(Do(b, a).db, c) { StepKeepsUnforged(b, a, c); }
  }

  lemma StepKeepsUnforged(b: Bank, a: Action, c: Uuid)
    requires RowsInv(b) && Unforged(b.db, c) && Enabled(b, a) && !Forges(a)
    ensures Unforged(Do(b, a).db, c)
  {
    StepKeepsRowsInv(b, a);
    match a
    case Interbank(id, _, _, _) => assert RowOk(b.db, id);
    case Compensate(o, _) => assert o.id in b.db.interbank;
    case _ =>
  }

  lemma {:induction false} RunKeepsNoneForged(b: Bank, run: seq<Action>)
    requires RowsInv(b) && NoneForged(b.db) && Legal(b, run) && NothingForged(run)
    ensures NoneForged(After(b, run).db)
    decreases |run|
  {
    if run != [] {
      assert !Forges(run[0]);
      StepKeepsRowsInv(b, run[0]);
      StepKeepsNoneForged(b, run[0]);
      assert forall i :: 0 <= i < |run[1..]| ==> run[1..][i] == run[i + 1];
      RunKeepsNoneForged(Do(b, run[0]), run[1..]);
    }
  }

  /** Exactly once: in a sound run a transfer is compensated exactly when one refund exists, and
      debit and refund cancel for the payer. */
  lemma SoundRunCompensatesExactlyOnce(run: seq<Action>, id: Uuid)
    requires Legal(START, run) && SoundRun(START, run) && NothingForged(run)
    requires id in After(START, run).db.interbank
    ensures var db := After(START, run).db;
            && RowsOk(db) && RefundsOk(db) && id in db.transfers
            && (db.interbank[id].status == COMPENSATED <==> exists c :: IsRefundOf(db, c, id))
            && (forall c, d :: IsRefundOf(db, c, id) && IsRefundOf(db, d, id) ==> c == d)
            && (forall c :: IsRefundOf(db, c, id) ==>
                  BalanceOf(EntriesFor(db.ledger, id) + EntriesFor(db.ledger, c), db.transfers[id].payer) == 0)
  {
    EmptyBankOk();
    AnyRunKeepsBooks(START, run);
    RunKeepsRefundsIff(START, run);
    RunKeepsNoneForged(START, run);
    CompensatedExactlyOnce(After(START, run).db, id);
  }

  /** A client who learns a transfer's id sends a transfer of its own under the text of its
      compensation key: the Hub's REVERSED then marks the transfer COMPENSATED and refunds
      nobody, although no outcomes disagree and nobody names suspense. */
  lemma TakenKeyLosesRefund(b: Bank, id: Uuid, client: Uuid, t: Transfer, refund: Uuid)
    requires RowsInv(b) && id in b.db.interbank && b.db.interbank[id].status == DEBITED
    requires Enabled(b, Local(client, t)) && t.amount <= BalanceOf(b.db.ledger, t.payer)
    requires t.key == CompensationKey(id) && t.payer != SUSPENSE
    requires refund !in b.db.transfers && refund != client
    ensures var o := Outcome(id, HubModel.REVERSED);
            var run := [Local(client, t), Read(o), Compensate(o, refund)];
            Legal(b, run) && Agreeing(run, {}) &&
            var db := After(b, run).db;
            && id in db.interbank && db.interbank[id].status == COMPENSATED
            && (forall c :: !IsRefundOf(db, c, id))
            && db.ledger == b.db.ledger + Movement(client, t.payer, t.payee, t.amount)
  {
    var o := Outcome(id, HubModel.REVERSED);
    assert RowOk(b.db, id);
    TakenKeyStrandsRefund(b.db, id, client, t, refund);
    BookThenCompensate(b, Local(client, t), o, refund);
  }

  // ----- agreeing outcomes and spared keys ----------------------------------------------------

  /** Every outcome read for an id is CONFIRMED exactly when the id is in `confirmed`, so all
      outcomes of one id agree. */
  predicate Agreeing(run: seq<Action>, confirmed: set<Uuid>) {
    forall i :: 0 <= i < |run| && run[i].Read? ==>
      (run[i].outcome.verdict == HubModel.CONFIRMED <==> run[i].outcome.id in confirmed)
  }

  predicate StateAgrees(b: Bank, confirmed: set<Uuid>) {
    && (forall o :: o in b.handlers ==> (o.verdict == HubModel.CONFIRMED <==> o.id in confirmed))
    && (forall id :: id in b.db.interbank && b.db.interbank[id].status == CONFIRMED ==> id in confirmed)
  }

  /** A compensation key is in use only for a refund that was made. */
  predicate KeySpared(db: BankDb, id: Uuid) {
    CompensationKey(id) in db.keys ==> id in db.interbank && db.interbank[id].status != DEBITED && Refunded(db, id)
  }

  ghost predicate StateSpared(db: BankDb) {
    forall id :: KeySpared(db, id)
  }

  lemma StepKeepsStateSpared(b: Bank, a: Action)
    requires RowsInv(b) && StateSpared(b.db) && Enabled(b, a) && SparesKeys(a)
    ensures StateSpared(Do(b, a).db)
  {
    StepKeepsRowsInv(b, a);
    var db' := Do(b, a).db;
    forall id ensures KeySpared(db', id) {
      assert KeySpared(b.db, id) && RowOk(b.db, id) && KeyOk(b.db, CompensationKey(id));
    }
  }

  /** When clients spare the compensation keys, the only unsound step left is a compensation
      after a confirmation. */
  lemma SparedStepIsSound(b: Bank, a: Action)
    requires StateSpared(b.db) && Enabled(b, a) && SparesKeys(a)
    requires a.Compensate? && a.outcome.id in b.db.interbank ==> b.db.interbank[a.outcome.id].status != CONFIRMED
    ensures Sound(b, a)
  {
    match a
    case Confirm(o) => assert KeySpared(b.db, o.id);
    case Compensate(o, _) => assert KeySpared(b.db, o.id);
    case _ =>
  }

  lemma AgreementStays(b: Bank, a: Action, confirmed: set<Uuid>)
    requires Enabled(b, a) && StateAgrees(b, confirmed)
    requires a.Read? ==> (a.outcome.verdict == HubModel.CONFIRMED <==> a.outcome.id in confirmed)
    ensures StateAgrees(Do(b, a), confirmed)
  {
  }

  lemma {:induction false} AgreeingOutcomesMakeRunSound(b: Bank, run: seq<Action>, confirmed: set<Uuid>)
    requires RowsInv(b) && StateSpared(b.db) && StateAgrees(b, confirmed)
    requires Legal(b, run) && Agreeing(run, confirmed) && KeysSpared(run)
    ensures SoundRun(b, run)
    decreases |run|
  {
    if run != [] {
      var a := run[0];
      assert SparesKeys(a) && (a.Read? ==> (a.outcome.verdict == HubModel.CONFIRMED <==> a.outcome.id in confirmed));
      SparedStepIsSound(b, a);
      AgreementStays(b, a, confirmed);
      StepKeepsRowsInv(b, a);
      StepKeepsStateSpared(b, a);
      assert forall i :: 0 <= i < |run[1..]| ==> run[1..][i] == run[i + 1];
      AgreeingOutcomesMakeRunSound(Do(b, a), run[1..], confirmed);
    }
  }

  /** With any number of concurrent, stale handlers, agreeing outcomes and spared keys compensate
      each transfer exactly once, whatever other transfers name suspense. */
  lemma AgreeingRunCompensatesExactlyOnce(run: seq<Action>, confirmed: set<Uuid>, id: Uuid)
    requires Legal(START, run) && Agreeing(run, confirmed) && KeysSpared(run)
    requires id in After(START, run).db.interbank
    ensures SoundRun(START, run)
    ensures var db := After(START, run).db;
            && RowsOk(db) && RefundsOk(db) && id in db.transfers
            && (db.interbank[id].status == COMPENSATED <==> exists c :: IsRefundOf(db, c, id))
            && (forall c, d :: IsRefundOf(db, c, id) && IsRefundOf(db, d, id) ==> c == d)
            && (forall c :: IsRefundOf(db, c, id) ==>
                  BalanceOf(EntriesFor(db.ledger, id) + EntriesFor(db.ledger, c), db.transfers[id].payer) == 0)
  {
    EmptyBankOk();
    AgreeingOutcomesMakeRunSound(START, run, confirmed);
    assert forall i :: 0 <= i < |run| ==> SparesKeys(run[i]);
    SoundRunCompensatesExactlyOnce(run, id);
  }

  /** What the assumptions about a run ask of its callers, in plain terms. */
  lemma AssumptionsMean(run: seq<Action>, confirmed: set<Uuid>)
    ensures KeysSpared(run) <==>
            forall i :: 0 <= i < |run| && (run[i].Local? || run[i].Interbank?) ==> !run[i].transfer.key.CompensationKey?
    ensures SuspenseLeftAlone(run) <==>
            && (forall i :: 0 <= i < |run| && run[i].Local? ==>
                  run[i].transfer.payer != SUSPENSE && run[i].transfer.payee != SUSPENSE)
            && (forall i :: 0 <= i < |run| && run[i].DevSeed? ==> run[i].account != SUSPENSE)
    ensures NothingForged(run) <==>
            forall i :: 0 <= i < |run| && run[i].Local? ==>
              run[i].transfer.payer != SUSPENSE || !run[i].transfer.key.CompensationKey?
    ensures Agreeing(run, confirmed) <==>
            forall i :: 0 <= i < |run| && run[i].Read? ==>
              (run[i].outcome.verdict == HubModel.CONFIRMED <==> run[i].outcome.id in confirmed)
  {
    if SuspenseLeftAlone(run) {
      assert forall i :: 0 <= i < |run| ==> LeavesSuspenseAlone(run[i]);
    }
  }

  // ----- the suspense account ---------------------------------------------------------------

  ghost predicate BankInv(b: Bank) {
    BankOk(b.db) && NoOverdraft(b.db) && HandlersKnown(b)
  }

  lemma StepKeepsBankInv(b: Bank, a: Action)
    requires BankInv(b) && Enabled(b, a) && LeavesSuspenseAlone(a) && Sound(b, a)
    ensures BankInv(Do(b, a))
  {
    StepKeepsRowsInv(b, a);
    match a
    case OpenAccount(account) => OpenKeepsBankOk(b.db, account);
    case Local(id, t) => BookedKeepsBankOk(b.db, id, t);
    case DevSeed(id, account, amount) => BookedKeepsBankOk(b.db, id, Seed(id, account, amount));
    case Interbank(id, t, payeeBank, payeeRef) => DebitedKeepsBankOk(b.db, id, t, payeeBank, payeeRef);
    case Confirm(o) => ConfirmedKeepsBankOk(b.db, o.id);
    case Compensate(o, id) => CompensatedKeepsBankOkIff(b.db, o.id, id);
    case MarkPublished(row) => PublishingKeepsBankOk(b.db, b.db.published + {row});
    case _ =>
  }

  /** A transfer that moved suspense and is neither a saga debit nor a reversal. */
  predicate OthersUse(db: BankDb, id: Uuid) {
    && id in db.transfers
    && ((db.transfers[id].payee == SUSPENSE && id !in db.interbank)
        || (db.transfers[id].payer == SUSPENSE && !db.transfers[id].key.CompensationKey?))
  }

  lemma NamingSuspenseUsesIt(b: Bank, a: Action) returns (id: Uuid)
    requires RowsInv(b) && Enabled(b, a) && !LeavesSuspenseAlone(a) && !Forges(a)
    ensures OthersUse(Do(b, a).db, id)
  {
    id := a.id;
    assert RowOk(b.db, id);
  }

  lemma OthersUseIsFinal(b: Bank, run: seq<Action>, id: Uuid)
    requires RowsInv(b) && Legal(b, run) && OthersUse(b.db, id)
    ensures !SuspenseOk(After(b, run).db)
  {
    AnyRunKeepsBooks(b, run);
    assert !SagaUse(After(b, run).db, id);
  }

  /** A sound step keeps the suspense account exact if and only if it leaves it alone. */
  lemma StepKeepsSuspenseOkIff(b: Bank, a: Action)
    requires BankInv(b) && Enabled(b, a) && Sound(b, a) && !Forges(a)
    ensures SuspenseOk(Do(b, a).db) <==> LeavesSuspenseAlone(a)
  {
    if LeavesSuspenseAlone(a) {
      StepKeepsBankInv(b, a);
    } else {
      StepKeepsRowsInv(b, a);
      var id := NamingSuspenseUsesIt(b, a);
      OthersUseIsFinal(Do(b, a), [], id);
    }
  }

  /** A run keeps transfers, refunds, saga rows and the suspense balance in agreement if and only
      if every step is sound and leaves suspense alone. The last part needs that nobody forges a
      reversal; one that is compensated later is not to be told from the refund it replaces. */
  lemma {:induction false} RunKeepsBankInvIff(b: Bank, run: seq<Action>)
    requires BankInv(b) && Legal(b, run)
    ensures SoundRun(b, run) && SuspenseLeftAlone(run) ==> BankInv(After(b, run))
    ensures NothingForged(run) ==> (BankOk(After(b, run).db) <==> SoundRun(b, run) && SuspenseLeftAlone(run))
    decreases |run|
  {
    RunKeepsRefundsIff(b, run);
    if run != [] && Sound(b, run[0]) {
      var a, b' := run[0], Do(b, run[0]);
      StepKeepsRowsInv(b, a);
      assert run[1..] == run[1..] && forall i :: 0 <= i < |run[1..]| ==> run[1..][i] == run[i + 1];
      if LeavesSuspenseAlone(a) {
        StepKeepsBankInv(b, a);
        RunKeepsBankInvIff(b', run[1..]);
        AloneFromHead(run);
      } else if !Forges(a) {
        var id := NamingSuspenseUsesIt(b, a);
        OthersUseIsFinal(b', run[1..], id);
      }
    }
  }

  lemma AloneFromHead(run: seq<Action>)
    requires run != [] && LeavesSuspenseAlone(run[0])
    ensures SuspenseLeftAlone(run) <==> SuspenseLeftAlone(run[1..])
    ensures NothingForged(run) <==> NothingForged(run[1..])
  {
    assert run == [run[0]] + run[1..];
  }

  /** A reversal forged while its transfer is DEBITED, and the compensation that then finds its key
      taken, leave the tables of the compensation alone. */
  lemma ForgedRefundIsAbsorbed(b: Bank, id: Uuid, forged: Uuid, refund: Uuid)
    requires BankInv(b) && id in b.db.interbank && b.db.interbank[id].status == DEBITED
    requires id in b.db.transfers && CompensationKey(id) !in b.db.keys
    requires forged !in b.db.transfers && refund !in b.db.transfers && refund != forged
    ensures var t, o := Reversal(b.db, id), Outcome(id, HubModel.REVERSED);
            var run := [Local(forged, t), Read(o), Compensate(o, refund)];
            && t.amount <= BalanceOf(b.db.ledger, SUSPENSE) && Forges(Local(forged, t))
            && Legal(b, run) && After(b, run).db == Compensated(b.db, id, forged) && BankOk(After(b, run).db)
  {
    var t, o := Reversal(b.db, id), Outcome(id, HubModel.REVERSED);
    SuspenseCovers(b.db, id);
    ReversalIsBookable(b.db, id, forged);
    BookThenCompensate(b, Local(forged, t), o, refund);
    CompensatedKeepsBankOkIff(b.db, id, forged);
  }

  lemma SuspenseCovers(db: BankDb, id: Uuid)
    requires BankOk(db) && id in db.interbank && id in db.transfers && db.interbank[id].status == DEBITED
    ensures db.transfers[id].amount <= BalanceOf(db.ledger, SUSPENSE)
  {
    forall x | x in ParkedAmounts(db) ensures ParkedAmounts(db)[x] >= 0 { assert RowOk(db, x); }
    Totals.TotalNonNegative(ParkedAmounts(db));
    assert ParkedAmounts(db)[id] == db.transfers[id].amount;
  }

  /** The smallest failure: a dev seed of one cent to the suspense account. */
  lemma SeedingSuspenseBreaksIdentity(b: Bank, id: Uuid)
    requires BankInv(b) && id !in b.db.transfers && DevSeedKey(id) !in b.db.keys
    ensures Enabled(b, DevSeed(id, SUSPENSE, 1))
    ensures var db := Do(b, DevSeed(id, SUSPENSE, 1)).db;
            BalanceOf(db.ledger, SUSPENSE) == Totals.Total(ParkedAmounts(db)) + 1
  {
    var t := Seed(id, SUSPENSE, 1);
    assert {SUSPENSE, DEV_TREASURY} <= b.db.accounts;
    AppendMovement(b.db.ledger, id, t.payer, t.payee, t.amount, SUSPENSE, 0);
    assert RowOk(b.db, id);
    assert ParkedAmounts(Booked(b.db, id, t)) == ParkedAmounts(b.db);
  }

  /** Every run accounts for suspense to the cent: what is not compensated, what was compensated
      and never refunded, and the net of everybody else. In a sound run nothing is stranded; if
      suspense is left alone as well, nothing is left but the sum of the transfers not
      compensated, which is never negative. */
  lemma SuspenseIdentity(run: seq<Action>)
    requires Legal(START, run)
    ensures var db := After(START, run).db;
            var parked, stranded, others :=
              Totals.Total(ParkedAmounts(db)), Totals.Total(StrandedAmounts(db)), Totals.Total(OtherFlows(db));
            && BalanceOf(db.ledger, SUSPENSE) == parked + stranded + others
            && 0 <= parked && 0 <= stranded
            && (SoundRun(START, run) ==> stranded == 0)
            && (SoundRun(START, run) && SuspenseLeftAlone(run) ==> others == 0 && BankOk(db))
  {
    EmptyBankOk();
    AnyRunKeepsBooks(START, run);
    RunKeepsRefundsIff(START, run);
    RunKeepsBankInvIff(START, run);
    var db := After(START, run).db;
    SuspenseAccounting(db);
    PartsAreNotNegative(db);
    if SoundRun(START, run) {
      NothingStranded(db);
      if SuspenseLeftAlone(run) { NothingElse(db); }
    }
  }

  lemma PartsAreNotNegative(db: BankDb)
    requires RowsOk(db)
    ensures 0 <= Totals.Total(ParkedAmounts(db)) && 0 <= Totals.Total(StrandedAmounts(db))
  {
    forall id | id in ParkedAmounts(db) ensures ParkedAmounts(db)[id] >= 0 && StrandedAmounts(db)[id] >= 0 {
      assert RowOk(db, id);
    }
    Totals.TotalNonNegative(ParkedAmounts(db));
    Totals.TotalNonNegative(StrandedAmounts(db));
  }

  /** Who may have moved suspense when other callers leave it alone, whatever outcomes arrive. */
  predicate SagaMoves(db: BankDb, id: Uuid) {
    id in db.transfers ==>
      && (db.transfers[id].payee == SUSPENSE ==> id in db.interbank)
      && (db.transfers[id].payer == SUSPENSE ==>
            && db.transfers[id].key.CompensationKey? && db.transfers[id].key.transfer in db.interbank
            && IsRefundOf(db, id, db.transfers[id].key.transfer))
  }

  lemma StepKeepsSagaMoves(b: Bank, a: Action, id: Uuid)
    requires RowsInv(b) && Enabled(b, a) && LeavesSuspenseAlone(a) && SagaMoves(b.db, id)
    ensures SagaMoves(Do(b, a).db, id)
  {
    StepKeepsRowsInv(b, a);
    assert RowOk(b.db, id);
    match a {
      case Compensate(o, _) => assert RowOk(b.db, o.id);
      case _ =>
    }
  }

  lemma {:induction false} RunKeepsSagaMoves(b: Bank, run: seq<Action>, id: Uuid)
    requires RowsInv(b) && Legal(b, run) && SuspenseLeftAlone(run) && SagaMoves(b.db, id)
    ensures SagaMoves(After(b, run).db, id)
    decreases |run|
  {
    if run != [] {
      assert LeavesSuspenseAlone(run[0]);
      StepKeepsRowsInv(b, run[0]);
      StepKeepsSagaMoves(b, run[0], id);
      assert forall i :: 0 <= i < |run[1..]| ==> run[1..][i] == run[i + 1];
      RunKeepsSagaMoves(Do(b, run[0]), run[1..], id);
    }
  }

  /** Only saga rows pay into suspense and only reversals out of it. */
  lemma OnlySagaUsesSuspense(run: seq<Action>, id: Uuid)
    requires Legal(START, run) && SuspenseLeftAlone(run)
    ensures SagaMoves(After(START, run).db, id)
  {
    EmptyBankOk();
    RunKeepsSagaMoves(START, run, id);
  }
}
