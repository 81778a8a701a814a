/** Bank A's services over its tables; each public method is one call with its transaction. */
module BankAService {
  import opened Prelude
  import opened Ledger
  import opened Outbox
  import opened BankAModel
  import HubModel
  import A = BankARuns

  /** What `GET /settlements/:id` at the Hub can answer: 404, another error response, no response
      at all, or the settlement. */
  datatype HubView = NotFound | Unavailable | NoResponse | Found(status: HubModel.Status)

  datatype HandleError = NoInterbankTransfer | NoLocalTransfer | InvalidReversal | RowRejected

  datatype SweepError = FetchFailed | HandleFailed(error: HandleError)

  // ----- what a call answers ----------------------------------------------------------------

  function FirstMissing(accounts: set<Uuid>, ids: seq<Uuid>): Option<Uuid> {
    if ids == [] then None
    else if ids[0] !in accounts then Some(ids[0])
    else FirstMissing(accounts, ids[1..])
  }

  /** The outcome of the transaction of `execute`: the locks in order, the unique key (a taken
      one rolls back and replays), the payer's balance, the saga row's reference. */
  function Booking(db: BankDb, id: Uuid, t: Transfer, locks: seq<Uuid>, destination: Option<(BankId, string)>):
    Result<Uuid, Error>
  {
    var balance := BalanceOf(db.ledger, t.payer);
    if FirstMissing(db.accounts, locks).Some? then Err(AccountNotFound(FirstMissing(db.accounts, locks).value))
    else if !ValidKey(t.key) then Err(Database)
    else if t.key in db.keys then Replayed(db, t, destination)
    else if !IsSafeInteger(balance) then Err(InvalidAmount)
    else if balance < t.amount then Err(InsufficientFunds)
    else if destination.Some? && !ValidRef(destination.value.1) then Err(Database)
    else Ok(id)
  }

  /** The result of `execute`: the domain checks, a replay of a taken key, the transaction. */
  function Answer(db: BankDb, id: Uuid, t: Transfer, locks: seq<Uuid>, destination: Option<(BankId, string)>):
    Result<Uuid, Error>
  {
    if t.amount <= 0 then Err(InvalidAmount)
    else if t.payer == t.payee then Err(SelfTransfer)
    else if t.key in db.keys then Replayed(db, t, destination)
    else Booking(db, id, t, locks, destination)
  }

  /** Whether `compensate` throws: the original, the reversal's own checks, its foreign keys. */
  function CompensateAnswer(db: BankDb, original: Uuid): Result<(), HandleError> {
    if original !in db.transfers then Err(NoLocalTransfer)
    else
      var reversal := Reversal(db, original);
      if !ValidTransfer(reversal) then Err(InvalidReversal)
      else if reversal.key !in db.keys && !(reversal.payer in db.accounts && reversal.payee in db.accounts)
      then Err(RowRejected)
      else Ok(())
  }

  /** Whether `handle` throws. */
  function HandleAnswer(db: BankDb, o: A.Outcome): Result<(), HandleError> {
    if o.id !in db.interbank then Err(NoInterbankTransfer)
    else if db.interbank[o.id].status != DEBITED || o.verdict == HubModel.CONFIRMED then Ok(())
    else CompensateAnswer(db, o.id)
  }

  /** The tables after `handle`. */
  function Handled(db: BankDb, o: A.Outcome, refund: Uuid): BankDb {
    if HandleAnswer(db, o).Err? || db.interbank[o.id].status != DEBITED then db
    else if o.verdict == HubModel.CONFIRMED then Confirmed(db, o.id)
    else Compensated(db, o.id, refund)
  }

  /** What a Hub view makes of a stale transfer; None leaves it for the next sweep. */
  function VerdictOf(view: HubView): Option<HubModel.Verdict> {
    match view
    case NotFound => Some(HubModel.REJECTED)
    case Unavailable | NoResponse => None
    case Found(status) => if status == HubModel.PENDING then None else Some(status)
  }

  predicate Distinct(ids: seq<Uuid>) {
    forall i, j :: 0 <= i < j < |ids| ==> ids[i] != ids[j]
  }

  /** `findStaleDebited`, given the ids last updated before the cutoff, oldest first. */
  function StaleDebited(db: BankDb, aged: seq<Uuid>): (stale: seq<Uuid>)
    ensures |stale| <= |aged|
    ensures forall id :: id in stale <==> id in aged && id in db.interbank && db.interbank[id].status == DEBITED
    ensures Distinct(aged) ==> Distinct(stale)
  {
    if aged == [] then []
    else
      var n := |aged| - 1;
      var id, before := aged[n], StaleDebited(db, aged[..n]);
      assert forall x :: x in aged <==> x in aged[..n] || x == id;
      assert Distinct(aged) ==> id !in before;
      if id in db.interbank && db.interbank[id].status == DEBITED then before + [id] else before
  }

  /** The tables after reconciling the listed transfers; transfer i, if refunded, gets id
      `refunds[i]`. */
  function Swept(db: BankDb, stale: seq<Uuid>, views: Uuid -> HubView, refunds: seq<Uuid>): BankDb
    requires |stale| <= |refunds|
  {
    if stale == [] then db
    else
      var n := |stale| - 1;
      var before := Swept(db, stale[..n], views, refunds);
      match VerdictOf(views(stale[n]))
      case None => before
      case Some(verdict) => Handled(before, A.Outcome(stale[n], verdict), refunds[n])
  }

  function Reconciled(stale: seq<Uuid>, views: Uuid -> HubView): nat {
    if stale == [] then 0
    else
      var n := |stale| - 1;
      Reconciled(stale[..n], views) + if VerdictOf(views(stale[n])).Some? then 1 else 0
  }

  /** The transfers a sweep gets to: it ends at the first request without a response. */
  function Reached(stale: seq<Uuid>, views: Uuid -> HubView): (reached: seq<Uuid>)
    ensures reached <= stale
    ensures forall id :: id in reached ==> views(id) != NoResponse
    ensures reached != stale ==> views(stale[|reached|]) == NoResponse
  {
    if stale == [] then []
    else
      var n := |stale| - 1;
      var before := Reached(stale[..n], views);
      if |before| == n && views(stale[n]) != NoResponse then stale else before
  }

  // ----- the services -----------------------------------------------------------------------

  class Bank {
    var accounts: set<Uuid>
    var transfers: map<Uuid, Transfer>
    var keys: map<Key, Uuid>
    var interbank: map<Uuid, Interbank>
    var ledger: seq<Entry<Uuid>>
    var outbox: seq<Row<HubModel.Request>>
    var published: set<nat>

    function Db(): BankDb
      reads this
    {
      BankDb(accounts, transfers, keys, interbank, ledger, outbox, published)
    }

    constructor ()
      ensures Db() == EMPTY_BANK
    {
      accounts, transfers, keys, interbank := {SUSPENSE, DEV_TREASURY}, map[], map[], map[];
      ledger, outbox, published := [], [], {};
    }

    method Rollback(before: BankDb)
      modifies this
      ensures Db() == before
    {
      accounts, transfers, keys, interbank := before.accounts, before.transfers, before.keys, before.interbank;
      ledger, outbox, published := before.ledger, before.outbox, before.published;
    }

    // ----- repositories ---------------------------------------------------------------------

    /** Writes a transfers row unless its key is taken; the CHECK constraints come first, the
        foreign keys last. */
    method InsertTransfer(id: Uuid, t: Transfer) returns (inserted: Result<bool, Error>)
      requires id !in transfers
      modifies `transfers, `keys
      ensures inserted == if !TransferChecks(t) then Err(Database)
                          else if t.key in old(keys) then Ok(false)
                          else if t.payer in accounts && t.payee in accounts then Ok(true)
                          else Err(Database)
      ensures inserted == Ok(true) ==> transfers == old(transfers)[id := t] && keys == old(keys)[t.key := id]
      ensures inserted != Ok(true) ==> transfers == old(transfers) && keys == old(keys)
    {
      if !TransferChecks(t) {
        return Err(Database);
      }
      if t.key in keys {
        return Ok(false);
      }
      if t.payer !in accounts || t.payee !in accounts {
        return Err(Database);
      }
      transfers, keys := transfers[id := t], keys[t.key := id];
      return Ok(true);
    }

    method AppendEntries(entries: seq<Entry<Uuid>>)
      modifies `ledger
      ensures ledger == old(ledger) + entries
    {
      for i := 0 to |entries|
        invariant ledger == old(ledger) + entries[..i]
      {
        ledger := ledger + [entries[i]];
        assert entries[..i + 1] == entries[..i] + [entries[i]];
      }
      assert entries[..|entries|] == entries;
    }

    method MarkInterbank(id: Uuid, status: Status)
      modifies `interbank
      ensures interbank == Marked(old(interbank), id, status)
    {
      if id in interbank && interbank[id].status == DEBITED {
        interbank := interbank[id := interbank[id].(status := status)];
      }
    }

    /** Locks the accounts in the order given, stopping at the first that does not exist. */
    method LockAccounts(ids: seq<Uuid>) returns (missing: Option<Uuid>)
      ensures missing == FirstMissing(accounts, ids)
    {
      for i := 0 to |ids|
        invariant FirstMissing(accounts, ids) == FirstMissing(accounts, ids[i..])
      {
        if ids[i] !in accounts {
          return Some(ids[i]);
        }
      }
      return None;
    }

    // ----- transfers.service ----------------------------------------------------------------

    /** The transaction of a local transfer; the key may have been taken since it was looked up. */
    method BookLocal(id: Uuid, t: Transfer) returns (result: Result<Uuid, Error>)
      requires ValidTransfer(t) && id !in transfers
      modifies this
      ensures result == Booking(old(Db()), id, t, Sorted(t.payer, t.payee), None)
      ensures Db() == if result == Ok(id) then Booked(old(Db()), id, t) else old(Db())
    {
      var before := Db();
      var missing := LockAccounts(Sorted(t.payer, t.payee));
      AllPresent(accounts, Sorted(t.payer, t.payee));
      if missing.Some? {
        return Err(AccountNotFound(missing.value));
      }
      var inserted := InsertTransfer(id, t);
      if inserted == Ok(true) {
        var balance := BalanceOf(ledger, t.payer);
        if !IsSafeInteger(balance) || balance < t.amount {
          Rollback(before);
          return Err(if !IsSafeInteger(balance) then InvalidAmount else InsufficientFunds);
        }
        AppendEntries(Movement(id, t.payer, t.payee, t.amount));
        return Ok(id);
      }
      Rollback(before);
      if inserted.Err? {
        return Err(Database);
      }
      if t.key !in keys {
        return Err(Vanished);
      }
      return Replayed(Db(), t, None);
    }

    /** A local transfer under an idempotency key; `id` is the generated UUID. */
    method ExecuteLocal(id: Uuid, t: Transfer) returns (result: Result<Uuid, Error>)
      requires IsSafeInteger(t.amount) && id !in transfers
      modifies this
      ensures result == Answer(old(Db()), id, t, Sorted(t.payer, t.payee), None)
      ensures Db() == if result == Ok(id) then Booked(old(Db()), id, t) else old(Db())
      ensures result == Ok(id) ==>
                && transfers == old(transfers)[id := t] && keys == old(keys)[t.key := id]
                && ledger == old(ledger) + [Entry(id, t.payer, -t.amount), Entry(id, t.payee, t.amount)]
                && interbank == old(interbank) && outbox == old(outbox)
    {
      if t.amount <= 0 {
        return Err(InvalidAmount);
      }
      if t.payer == t.payee {
        return Err(SelfTransfer);
      }
      if t.key in keys {
        return Replayed(Db(), t, None);
      }
      result := BookLocal(id, t);
    }

    // ----- interbank-transfers.service ------------------------------------------------------

    /** The transaction of an interbank transfer: the payer's debit to suspense, its saga row and
        its outbox row. */
    method BookInterbank(id: Uuid, t: Transfer, payeeBank: BankId, payeeRef: string)
      returns (result: Result<Uuid, Error>)
      requires ValidTransfer(t) && t.payee == SUSPENSE && SUSPENSE in accounts && id !in transfers
      modifies this
      ensures result == Booking(old(Db()), id, t, [t.payer], Some((payeeBank, payeeRef)))
      ensures Db() == if result == Ok(id) then Debited(old(Db()), id, t, payeeBank, payeeRef) else old(Db())
    {
      var before := Db();
      var missing := LockAccounts([t.payer]);
      if missing.Some? {
        return Err(AccountNotFound(missing.value));
      }
      var inserted := InsertTransfer(id, t);
      if inserted == Ok(true) {
        var balance := BalanceOf(ledger, t.payer);
        if !IsSafeInteger(balance) || balance < t.amount {
          Rollback(before);
          return Err(if !IsSafeInteger(balance) then InvalidAmount else InsufficientFunds);
        }
        AppendEntries(Movement(id, t.payer, t.payee, t.amount));
        if !ValidRef(payeeRef) {
          Rollback(before);
          return Err(Database);
        }
        interbank := interbank[id := Interbank(payeeBank, payeeRef, DEBITED)];
        outbox := outbox + [Row(id, RequestFor(id, payeeBank, payeeRef, t.amount))];
        return Ok(id);
      }
      Rollback(before);
      if inserted.Err? {
        return Err(Database);
      }
      if t.key !in keys {
        return Err(Vanished);
      }
      return Replayed(Db(), t, Some((payeeBank, payeeRef)));
    }

    method ExecuteInterbank(id: Uuid, t: Transfer, payeeBank: BankId, payeeRef: string)
      returns (result: Result<Uuid, Error>)
      requires IsSafeInteger(t.amount) && t.payee == SUSPENSE && SUSPENSE in accounts && id !in transfers
      modifies this
      ensures result == Answer(old(Db()), id, t, [t.payer], Some((payeeBank, payeeRef)))
      ensures Db() == if result == Ok(id) then Debited(old(Db()), id, t, payeeBank, payeeRef) else old(Db())
      ensures result == Ok(id) ==>
                && transfers == old(transfers)[id := t] && keys == old(keys)[t.key := id]
                && ledger == old(ledger) + [Entry(id, t.payer, -t.amount), Entry(id, SUSPENSE, t.amount)]
                && interbank == old(interbank)[id := Interbank(payeeBank, payeeRef, DEBITED)]
                && outbox == old(outbox) + [Row(id, HubModel.Request(id, BANK_ID, payeeBank, payeeRef, t.amount))]
    {
      if t.amount <= 0 {
        return Err(InvalidAmount);
      }
      if t.payer == t.payee {
        return Err(SelfTransfer);
      }
      if t.key in keys {
        return Replayed(Db(), t, Some((payeeBank, payeeRef)));
      }
      result := BookInterbank(id, t, payeeBank, payeeRef);
    }

    // ----- accounts.service -----------------------------------------------------------------

    /** Funds an account from the treasury, whose balance is not checked, and reads the new
        balance back; a balance beyond the safe integers makes the call fail after the commit. */
    method DevSeed(id: Uuid, account: Uuid, amount: Cents) returns (result: Result<int, Error>)
      requires id !in transfers
      modifies this
      ensures var t := A.Seed(id, account, amount);
              var balance := old(BalanceOf(ledger, account)) + amount;
              var booked := old(ValidTransfer(t) && RowFree(Db(), id, t));
              && Db() == (if booked then Booked(old(Db()), id, t) else old(Db()))
              && (booked ==>
                    && transfers == old(transfers)[id := Transfer(DevSeedKey(id), DEV_TREASURY, account, amount)]
                    && ledger == old(ledger) + [Entry(id, DEV_TREASURY, -amount), Entry(id, account, amount)])
              && result == (if account !in old(accounts) then Err(AccountNotFound(account))
                            else if !booked then Err(Database)
                            else if !IsSafeInteger(balance) then Err(InvalidAmount)
                            else Ok(balance))
    {
      if account !in accounts {
        return Err(AccountNotFound(account));
      }
      ghost var before := Db();
      var t := A.Seed(id, account, amount);
      assert IsSafeInteger(amount);
      var inserted := InsertTransfer(id, t);
      if inserted != Ok(true) {
        return Err(Database);
      }
      AppendEntries(Movement(id, t.payer, t.payee, t.amount));
      AppendMovement(before.ledger, id, t.payer, t.payee, t.amount, account, id);
      var balance := BalanceOf(ledger, account);
      return if IsSafeInteger(balance) then Ok(balance) else Err(InvalidAmount);
    }

    // ----- interbank-reply.service ----------------------------------------------------------

    /** Applies an outcome to a DEBITED transfer; any other transfer is left alone. */
    method Handle(o: A.Outcome, refund: Uuid) returns (result: Result<(), HandleError>)
      requires refund !in transfers
      modifies this
      ensures result == HandleAnswer(old(Db()), o)
      ensures Db() == Handled(old(Db()), o, refund)
      ensures if result.Err? || old(interbank)[o.id].status != DEBITED then Db() == old(Db())
              else
                && interbank == old(interbank)[o.id := old(interbank)[o.id].(status :=
                     if o.verdict == HubModel.CONFIRMED then CONFIRMED else COMPENSATED)]
                && if o.verdict == HubModel.CONFIRMED || CompensationKey(o.id) in old(keys) then
                     transfers == old(transfers) && ledger == old(ledger)
                   else
                     var paid := old(transfers)[o.id];
                     && transfers == old(transfers)[refund :=
                          Transfer(CompensationKey(o.id), SUSPENSE, paid.payer, paid.amount)]
                     && ledger == old(ledger)
                                  + [Entry(refund, SUSPENSE, -paid.amount), Entry(refund, paid.payer, paid.amount)]
      ensures old(RowsOk(Db())) ==> RowsOk(Db()) && (result.Ok? <==> o.id in old(interbank))
      ensures old(BankOk(Db())) ==>
                (BankOk(Db()) <==> o.verdict == HubModel.CONFIRMED || old(KeysFree(Db(), [o.id])))
    {
      ghost var before := Db();
      if RowsOk(before) {
        HandledKeepsRowsOk(before, o, refund);
      }
      if o.id !in interbank {
        return Err(NoInterbankTransfer);
      }
      if interbank[o.id].status != DEBITED {
        return Ok(());
      }
      if o.verdict == HubModel.CONFIRMED {
        MarkInterbank(o.id, CONFIRMED);
        return Ok(());
      }
      result := Compensate(o.id, refund);
    }

    /** Books the refund, at most once per transfer, and marks the saga row. */
    method Compensate(original: Uuid, refund: Uuid) returns (result: Result<(), HandleError>)
      requires refund !in transfers
      modifies this
      ensures result == CompensateAnswer(old(Db()), original)
      ensures Db() == if result.Ok? then Compensated(old(Db()), original, refund) else old(Db())
    {
      if original !in transfers {
        return Err(NoLocalTransfer);
      }
      var paid := transfers[original];
      var reversal := Transfer(CompensationKey(original), SUSPENSE, paid.payer, paid.amount);
      if !ValidTransfer(reversal) {
        return Err(InvalidReversal);
      }
      var inserted := InsertTransfer(refund, reversal);
      if inserted.Err? {
        return Err(RowRejected);
      }
      if inserted == Ok(true) {
        AppendEntries(Movement(refund, reversal.payer, reversal.payee, reversal.amount));
      }
      MarkInterbank(original, COMPENSATED);
      return Ok(());
    }

    // ----- reconciliation.service -----------------------------------------------------------

    /** Applies the Hub's answer for one transfer; true when it was handed to `Handle`. */
    method ReconcileOne(id: Uuid, view: HubView, refund: Uuid) returns (result: Result<bool, SweepError>)
      requires refund !in transfers
      modifies this
      ensures match view
              case Unavailable => result == Ok(false) && Db() == old(Db())
              case NoResponse => result == Err(FetchFailed) && Db() == old(Db())
              case Found(PENDING) => result == Ok(false) && Db() == old(Db())
              case Found(status) =>
                && Db() == Handled(old(Db()), A.Outcome(id, status), refund)
                && (result == Ok(true) <==> HandleAnswer(old(Db()), A.Outcome(id, status)).Ok?)
              case NotFound =>
                && Db() == Handled(old(Db()), A.Outcome(id, HubModel.REJECTED), refund)
                && (result == Ok(true) <==> HandleAnswer(old(Db()), A.Outcome(id, HubModel.REJECTED)).Ok?)
      ensures match VerdictOf(view)
              case None =>
                && result == (if view == NoResponse then Err(FetchFailed) else Ok(false))
                && Db() == old(Db())
              case Some(verdict) =>
                && result == (match HandleAnswer(old(Db()), A.Outcome(id, verdict))
                              case Ok(_) => Ok(true)
                              case Err(error) => Err(HandleFailed(error)))
                && Db() == Handled(old(Db()), A.Outcome(id, verdict), refund)
    {
      var handled;
      match view {
        case NotFound => handled := Handle(A.Outcome(id, HubModel.REJECTED), refund);
        case Unavailable => return Ok(false);
        case NoResponse => return Err(FetchFailed);
        case Found(status) =>
          if status == HubModel.PENDING {
            return Ok(false);
          }
          handled := Handle(A.Outcome(id, status), refund);
      }
      return if handled.Ok? then Ok(true) else Err(HandleFailed(handled.error));
    }

    /** One pass over the stale transfers with the Hub's view of each. A missing response ends
        it with an error and keeps what was reconciled before; `Handle` never ends it. */
    method Sweep(aged: seq<Uuid>, views: Uuid -> HubView, refunds: seq<Uuid>)
      returns (result: Result<(nat, nat), SweepError>)
      requires RowsOk(Db())
      requires |refunds| == |aged| && FreshRefunds(Db(), refunds)
      modifies this
      ensures var stale := StaleDebited(old(Db()), aged);
              var reached := Reached(stale, views);
              && Db() == Swept(old(Db()), reached, views, refunds) && RowsOk(Db())
              && result == if reached == stale then Ok((|stale|, Reconciled(stale, views))) else Err(FetchFailed)
      ensures old(BankOk(Db()) && KeysFree(Db(), aged)) ==> BankOk(Db())
    {
      ghost var before := Db();
      var stale := StaleDebited(Db(), aged);
      var reconciled := 0;
      for i := 0 to |stale|
        invariant reconciled == Reconciled(stale[..i], views)
        invariant SweptSoFar(before, Db(), stale, i, views, refunds)
      {
        SweepAdvances(before, Db(), stale, i, views, refunds);
        var answer := ReconcileOne(stale[i], views(stale[i]), refunds[i]);
        if answer.Err? {
          ReachedStops(stale, i, views);
          return Err(answer.error);
        }
        if answer.value {
          reconciled := reconciled + 1;
        }
      }
      assert stale[..|stale|] == stale;
      return Ok((|stale|, reconciled));
    }
  }

  /** A sweep that has dealt with the first i transfers. */
  ghost predicate SweptSoFar(before: BankDb, now: BankDb, stale: seq<Uuid>, i: nat, views: Uuid -> HubView,
                             refunds: seq<Uuid>)
    requires i <= |stale| <= |refunds|
  {
    && now == Swept(before, stale[..i], views, refunds) && RowsOk(now)
    && (BankOk(before) && KeysFree(before, stale) ==> BankOk(now) && KeysFree(now, stale))
    && Reached(stale[..i], views) == stale[..i]
    && (forall id :: id in stale ==> id in now.interbank)
    && forall j :: i <= j < |refunds| ==> refunds[j] !in now.transfers
  }

  lemma SweepAdvances(before: BankDb, now: BankDb, stale: seq<Uuid>, i: nat, views: Uuid -> HubView, refunds: seq<Uuid>)
    requires i < |stale| <= |refunds| && FreshRefunds(before, refunds)
    requires SweptSoFar(before, now, stale, i, views, refunds)
    ensures Reconciled(stale[..i + 1], views) ==
            Reconciled(stale[..i], views) + if VerdictOf(views(stale[i])).Some? then 1 else 0
    ensures match VerdictOf(views(stale[i]))
            case None => views(stale[i]) != NoResponse ==> SweptSoFar(before, now, stale, i + 1, views, refunds)
            case Some(verdict) =>
              var o := A.Outcome(stale[i], verdict);
              && HandleAnswer(now, o).Ok?
              && SweptSoFar(before, Handled(now, o, refunds[i]), stale, i + 1, views, refunds)
  {
    assert stale[..i + 1][..i] == stale[..i];
    assert stale[i] in stale;
    if VerdictOf(views(stale[i])).Some? {
      var o := A.Outcome(stale[i], VerdictOf(views(stale[i])).value);
      HandledKeepsRowsOk(now, o, refunds[i]);
      if KeysFree(now, stale) { HandledKeepsKeysFree(now, o, refunds[i], stale); }
    }
  }

  lemma {:induction false} ReachedStops(stale: seq<Uuid>, i: nat, views: Uuid -> HubView)
    requires i < |stale| && Reached(stale[..i], views) == stale[..i] && views(stale[i]) == NoResponse
    ensures Reached(stale, views) == stale[..i]
  {
    var n := |stale| - 1;
    if i < n {
      assert stale[..n][..i] == stale[..i];
      ReachedStops(stale[..n], i, views);
    }
  }

  predicate FreshRefunds(db: BankDb, refunds: seq<Uuid>) {
    && (forall i :: 0 <= i < |refunds| ==> refunds[i] !in db.transfers)
    && (forall i, j :: 0 <= i < j < |refunds| ==> refunds[i] != refunds[j])
  }

  // ----- what the answers mean --------------------------------------------------------------

  lemma {:induction false} AllPresent(accounts: set<Uuid>, ids: seq<Uuid>)
    ensures FirstMissing(accounts, ids) == None <==> forall id :: id in ids ==> id in accounts
    ensures FirstMissing(accounts, ids).Some? ==>
              FirstMissing(accounts, ids).value !in accounts && FirstMissing(accounts, ids).value in ids
  {
    if ids != [] {
      AllPresent(accounts, ids[1..]);
      assert forall id :: id in ids <==> id == ids[0] || id in ids[1..];
    }
  }

  /** A call whose key is taken answers with the transfer that holds it if and only if payer,
      payee, amount and, between banks, the destination of its rows are those of the call,
      whatever has become of it since; otherwise the key is refused. */
  lemma ReplayedIff(db: BankDb, t: Transfer, destination: Option<(BankId, string)>)
    requires RowsOk(db) && t.key in db.keys
    ensures var holder := db.keys[t.key];
            && holder in db.transfers
            && var held := db.transfers[holder];
               var same := && held.payer == t.payer && held.payee == t.payee && held.amount == t.amount
                           && (destination.Some? ==>
                                 && holder in db.interbank
                                 && db.interbank[holder].payeeBank == destination.value.0
                                 && db.interbank[holder].payeeRef == destination.value.1);
               && (Replayed(db, t, destination) == Ok(holder) <==> same)
               && (Replayed(db, t, destination) == Err(IdempotencyConflict) <==> !same)
  {
    assert KeyOk(db, t.key);
  }

  /** What each answer of a call means, each in both directions: refused parameters, a taken key
      (replay or conflict), a missing account, a text the column does not take, an unsafe or an
      insufficient balance, and otherwise a new transfer. "Vanished" is no answer. */
  lemma AnswerMeans(db: BankDb, id: Uuid, t: Transfer, locks: seq<Uuid>, destination: Option<(BankId, string)>)
    requires RowsOk(db) && id !in db.transfers && IsSafeInteger(t.amount)
    requires if destination.None? then locks == if t.payer <= t.payee then [t.payer, t.payee] else [t.payee, t.payer]
             else locks == [t.payer] && t.payee == SUSPENSE
    ensures var answer, balance := Answer(db, id, t, locks, destination), BalanceOf(db.ledger, t.payer);
            var valid := 0 < t.amount && t.payer != t.payee;
            var present := forall a :: a in locks ==> a in db.accounts;
            var keyFits := t.key.PlainKey? ==> 1 <= |t.key.text| <= 255;
            var open := valid && t.key !in db.keys && present && keyFits;
            var safe := -9007199254740991 <= balance <= 9007199254740991;
            var refFits := destination.Some? ==> 1 <= |destination.value.1| <= 255;
            && (answer == Ok(id) <==> open && safe && t.amount <= balance && refFits)
            && (answer == Err(InvalidAmount) <==> t.amount <= 0 || (open && !safe))
            && (answer == Err(SelfTransfer) <==> 0 < t.amount && t.payer == t.payee)
            && (answer == Err(InsufficientFunds) <==> open && safe && balance < t.amount)
            && (answer == Err(Database) <==>
                  || (valid && t.key !in db.keys && present && !keyFits)
                  || (open && safe && t.amount <= balance && !refFits))
            && (answer.Err? && answer.error.AccountNotFound? <==> valid && t.key !in db.keys && !present)
            && (answer.Err? && answer.error.AccountNotFound? ==>
                  && answer.error.account in locks && answer.error.account !in db.accounts
                  && forall a :: a in locks && a < answer.error.account ==> a in db.accounts)
            && (valid && t.key in db.keys ==> answer == Replayed(db, t, destination))
            && (answer == Err(IdempotencyConflict) ==> valid && t.key in db.keys)
            && answer != Err(Vanished)
  {
    AllPresent(db.accounts, locks);
    if t.key in db.keys {
      ReplayedIff(db, t, destination);
    }
    assert forall a :: a in locks ==> a == t.payer || a == t.payee;
    assert t.payer in locks && (destination.None? ==> t.payee in locks);
    if FirstMissing(db.accounts, locks).Some? {
      assert locks[0] in db.accounts ==> |locks| == 2 && FirstMissing(db.accounts, locks).value == locks[1];
    }
  }

  /** Repeating a booked call under its key answers with the first transfer, and the same key
      with anything different is refused. */
  lemma RepeatedExecuteReplays(db: BankDb, id: Uuid, t: Transfer, payeeBank: BankId, payeeRef: string,
                               again: Uuid, u: Transfer, otherBank: BankId, otherRef: string)
    requires ValidTransfer(u) && u.key == t.key && again != id
    ensures Answer(Booked(db, id, t), again, u, Sorted(u.payer, u.payee), None) ==
            if u == t then Ok(id) else Err(IdempotencyConflict)
    ensures Answer(Debited(db, id, t, payeeBank, payeeRef), again, u, [u.payer], Some((otherBank, otherRef))) ==
            if u == t && otherBank == payeeBank && otherRef == payeeRef then Ok(id) else Err(IdempotencyConflict)
  {
    assert u == t <==> u.payer == t.payer && u.payee == t.payee && u.amount == t.amount;
  }

  /** A booking by the service is one step of the concurrent machine. */
  lemma ExecuteIsAStep(db: BankDb, id: Uuid, t: Transfer, handlers: multiset<A.Outcome>)
    requires RowsOk(db) && id !in db.transfers && IsSafeInteger(t.amount)
    ensures Answer(db, id, t, Sorted(t.payer, t.payee), None) == Ok(id) ==>
              && A.Enabled(A.Bank(db, handlers), A.Local(id, t))
              && A.Do(A.Bank(db, handlers), A.Local(id, t)).db == Booked(db, id, t)
    ensures forall bank, ref :: t.payee == SUSPENSE && Answer(db, id, t, [t.payer], Some((bank, ref))) == Ok(id) ==>
              && A.Enabled(A.Bank(db, handlers), A.Interbank(id, t, bank, ref))
              && A.Do(A.Bank(db, handlers), A.Interbank(id, t, bank, ref)).db == Debited(db, id, t, bank, ref)
  {
    AnswerMeans(db, id, t, Sorted(t.payer, t.payee), None);
    forall bank, ref | t.payee == SUSPENSE && Answer(db, id, t, [t.payer], Some((bank, ref))) == Ok(id)
      ensures A.Enabled(A.Bank(db, handlers), A.Interbank(id, t, bank, ref))
    {
      AnswerMeans(db, id, t, [t.payer], Some((bank, ref)));
    }
  }

  /** A seed is booked exactly for a positive amount and an existing account other than the
      treasury, under a key nobody has guessed, and is one step of the machine. */
  lemma SeedIsAStep(b: A.Bank, id: Uuid, account: Uuid, amount: Cents)
    requires RowsOk(b.db) && id !in b.db.transfers
    ensures var t := A.Seed(id, account, amount);
            ValidTransfer(t) && RowFree(b.db, id, t) <==>
            account in b.db.accounts && account != DEV_TREASURY && 0 < amount && DevSeedKey(id) !in b.db.keys
    ensures account in b.db.accounts && account != DEV_TREASURY && 0 < amount && DevSeedKey(id) !in b.db.keys ==>
              && A.Enabled(b, A.DevSeed(id, account, amount))
              && A.Do(b, A.DevSeed(id, account, amount)).db == Booked(b.db, id, A.Seed(id, account, amount))
  {
    assert IsSafeInteger(amount);
    assert DEV_TREASURY in b.db.accounts;
  }

  /** The compensation keys of these transfers, as far as they are still DEBITED, are free. */
  predicate KeysFree(db: BankDb, ids: seq<Uuid>) {
    forall id :: id in ids && id in db.interbank && db.interbank[id].status == DEBITED ==>
      CompensationKey(id) !in db.keys
  }

  /** `handle` throws on no transfer it knows, and keeps the rows in order. It keeps refunds and
      suspense exact if and only if it does not compensate under a key a client has taken. */
  lemma HandledKeepsRowsOk(db: BankDb, o: A.Outcome, refund: Uuid)
    requires RowsOk(db) && refund !in db.transfers
    ensures HandleAnswer(db, o).Ok? <==> o.id in db.interbank
    ensures RowsOk(Handled(db, o, refund))
    ensures BankOk(db) ==>
              (BankOk(Handled(db, o, refund)) <==> o.verdict == HubModel.CONFIRMED || KeysFree(db, [o.id]))
  {
    if o.id in db.interbank {
      KnownIsHandled(db, o);
      if o.verdict == HubModel.CONFIRMED {
        MarkedKeepsRowsOk(db, o.id, CONFIRMED);
        if BankOk(db) { ConfirmedKeepsBankOk(db, o.id); }
      } else if db.interbank[o.id].status == DEBITED {
        CompensatedKeepsRowsOk(db, o.id, refund);
        if BankOk(db) {
          BankOkIsUnforged(db);
          CompensatedKeepsBankOkIff(db, o.id, refund);
          assert o.id in [o.id];
        }
      }
    }
  }

  lemma HandledKeepsKeysFree(db: BankDb, o: A.Outcome, refund: Uuid, ids: seq<Uuid>)
    requires KeysFree(db, ids)
    ensures KeysFree(Handled(db, o, refund), ids)
  {
  }

  lemma KnownIsHandled(db: BankDb, o: A.Outcome)
    requires RowsOk(db) && o.id in db.interbank
    ensures o.id in db.transfers && HandleAnswer(db, o).Ok?
  {
    assert RowOk(db, o.id);
  }

  /** An uninterrupted `handle` of a DEBITED transfer is the machine's read and commit. */
  lemma HandleIsTwoSteps(b: A.Bank, o: A.Outcome, refund: Uuid)
    requires RowsOk(b.db) && refund !in b.db.transfers
    requires o.id in b.db.interbank && b.db.interbank[o.id].status == DEBITED
    ensures var commit := if o.verdict == HubModel.CONFIRMED then A.Confirm(o) else A.Compensate(o, refund);
            && A.Enabled(b, A.Read(o)) && A.Enabled(A.Do(b, A.Read(o)), commit)
            && A.Do(A.Do(b, A.Read(o)), commit) == A.Bank(Handled(b.db, o, refund), b.handlers)
  {
    assert RowOk(b.db, o.id);
  }

  // ----- what a sweep does ------------------------------------------------------------------

  function StatusAfter(verdict: HubModel.Verdict): Status {
    if verdict == HubModel.CONFIRMED then CONFIRMED else COMPENSATED
  }

  lemma HandledStatus(db: BankDb, o: A.Outcome, refund: Uuid)
    requires RowsOk(db) && o.id in db.interbank && db.interbank[o.id].status == DEBITED && refund !in db.transfers
    ensures var after := Handled(db, o, refund);
            && after.interbank == db.interbank[o.id := db.interbank[o.id].(status := StatusAfter(o.verdict))]
            && (forall id :: id in after.transfers ==> id in db.transfers || id == refund)
  {
    HandledKeepsRowsOk(db, o, refund);
  }

  /** A row after the listed transfers were swept. */
  function RowAfter(row: Interbank, id: Uuid, stale: seq<Uuid>, views: Uuid -> HubView): Interbank {
    if id in stale && VerdictOf(views(id)).Some? then row.(status := StatusAfter(VerdictOf(views(id)).value)) else row
  }

  predicate SweptTo(db: BankDb, after: BankDb, stale: seq<Uuid>, views: Uuid -> HubView) {
    after.interbank == map id | id in db.interbank :: RowAfter(db.interbank[id], id, stale, views)
  }

  predicate AllDebited(db: BankDb, stale: seq<Uuid>) {
    Distinct(stale) && forall id :: id in stale ==> id in db.interbank && db.interbank[id].status == DEBITED
  }

  lemma SweepOneMore(db: BankDb, init: seq<Uuid>, last: Uuid, views: Uuid -> HubView, before: BankDb, refund: Uuid)
    requires AllDebited(db, init + [last]) && RowsOk(before) && refund !in before.transfers
    requires SweptTo(db, before, init, views)
    ensures var after := match VerdictOf(views(last))
                         case None => before
                         case Some(verdict) => Handled(before, A.Outcome(last, verdict), refund);
            && RowsOk(after) && SweptTo(db, after, init + [last], views)
            && (forall id :: id in after.transfers ==> id in before.transfers || id == refund)
  {
    var stale := init + [last];
    assert stale[|init|] == last;
    assert forall id :: id in stale <==> id in init || id == last;
    assert last !in init by {
      assert forall i :: 0 <= i < |init| ==> stale[i] == init[i];
    }
    if VerdictOf(views(last)).Some? {
      var o := A.Outcome(last, VerdictOf(views(last)).value);
      HandledKeepsRowsOk(before, o, refund);
      HandledStatus(before, o, refund);
    }
  }

  lemma {:induction false} SweptRows(db: BankDb, stale: seq<Uuid>, views: Uuid -> HubView, refunds: seq<Uuid>)
    requires RowsOk(db) && AllDebited(db, stale) && |stale| <= |refunds| && FreshRefunds(db, refunds)
    ensures var after := Swept(db, stale, views, refunds);
            && RowsOk(after) && SweptTo(db, after, stale, views)
            && (forall j :: |stale| <= j < |refunds| ==> refunds[j] !in after.transfers)
  {
    if stale != [] {
      var n := |stale| - 1;
      assert stale == stale[..n] + [stale[n]];
      SweptRows(db, stale[..n], views, refunds);
      SweepOneMore(db, stale[..n], stale[n], views, Swept(db, stale[..n], views, refunds), refunds[n]);
    }
  }

  lemma FullSweep(db: BankDb, aged: seq<Uuid>, views: Uuid -> HubView, refunds: seq<Uuid>)
    requires RowsOk(db) && Distinct(aged) && |aged| <= |refunds| && FreshRefunds(db, refunds)
    ensures var stale := StaleDebited(db, aged);
            var after := Swept(db, stale, views, refunds);
            RowsOk(after) && SweptTo(db, after, stale, views)
  {
    SweptRows(db, StaleDebited(db, aged), views, refunds);
  }

  /** The stretch of a sweep before a missing response. */
  lemma CutSweep(db: BankDb, aged: seq<Uuid>, views: Uuid -> HubView, refunds: seq<Uuid>)
    requires RowsOk(db) && Distinct(aged) && |aged| <= |refunds| && FreshRefunds(db, refunds)
    ensures var reached := Reached(StaleDebited(db, aged), views);
            var cut := Swept(db, reached, views, refunds);
            RowsOk(cut) && SweptTo(db, cut, reached, views)
  {
    var stale := StaleDebited(db, aged);
    var reached := Reached(stale, views);
    assert forall i :: 0 <= i < |reached| ==> reached[i] == stale[i] && reached[i] in stale;
    SweptRows(db, reached, views, refunds);
  }

  /** How many of the listed transfers are settled. */
  function Settled(db: BankDb, ids: seq<Uuid>): nat {
    if ids == [] then 0
    else
      var last := ids[|ids| - 1];
      Settled(db, ids[..|ids| - 1]) + if last in db.interbank && db.interbank[last].status != DEBITED then 1 else 0
  }

  lemma {:induction false} ReconciledCounts(after: BankDb, stale: seq<Uuid>, views: Uuid -> HubView)
    requires forall id :: id in stale ==>
               id in after.interbank && (after.interbank[id].status != DEBITED <==> VerdictOf(views(id)).Some?)
    ensures Reconciled(stale, views) == Settled(after, stale)
  {
    if stale != [] {
      var n := |stale| - 1;
      assert stale[n] in stale;
      assert forall id :: id in stale[..n] ==> id in stale;
      ReconciledCounts(after, stale[..n], views);
    }
  }

  lemma {:induction false} UnresolvedSweepIsIdle(db: BankDb, ids: seq<Uuid>, views: Uuid -> HubView, refunds: seq<Uuid>)
    requires |ids| <= |refunds| && forall id :: id in ids ==> VerdictOf(views(id)).None?
    ensures Swept(db, ids, views, refunds) == db && Reconciled(ids, views) == 0
  {
    if ids != [] {
      var n := |ids| - 1;
      assert ids[n] in ids;
      assert forall id :: id in ids[..n] ==> id in ids;
      UnresolvedSweepIsIdle(db, ids[..n], views, refunds);
    }
  }

  /** Exactly the listed transfers the Hub reports PENDING or does not report are still DEBITED,
      and no other row changed. */
  predicate OnlyUnresolvedRemain(db: BankDb, after: BankDb, stale: seq<Uuid>, views: Uuid -> HubView) {
    && after.interbank.Keys == db.interbank.Keys
    && (forall id :: id in stale ==>
          && id in after.interbank
          && (after.interbank[id].status == DEBITED <==>
              views(id) == Unavailable || views(id) == NoResponse || views(id) == Found(HubModel.PENDING)))
    && (forall id :: id in db.interbank && id !in stale ==> after.interbank[id] == db.interbank[id])
  }

  lemma SweptStatuses(db: BankDb, after: BankDb, stale: seq<Uuid>, views: Uuid -> HubView)
    requires SweptTo(db, after, stale, views)
    requires forall id :: id in stale ==> id in db.interbank && db.interbank[id].status == DEBITED
    ensures OnlyUnresolvedRemain(db, after, stale, views)
    ensures Reconciled(stale, views) == Settled(after, stale)
  {
    ReconciledCounts(after, stale, views);
  }

  /** Sweeping again with the same views finds nothing to do. */
  lemma SweepIsIdempotent(db: BankDb, after: BankDb, aged: seq<Uuid>, views: Uuid -> HubView,
                          again: seq<Uuid>, refunds: seq<Uuid>)
    requires SweptTo(db, after, StaleDebited(db, aged), views)
    requires |again| <= |refunds| && forall id :: id in again ==> id in aged
    ensures var left := StaleDebited(after, again);
            Swept(after, left, views, refunds) == after && Reconciled(left, views) == 0
  {
    SweptStatuses(db, after, StaleDebited(db, aged), views);
    UnresolvedSweepIsIdle(after, StaleDebited(after, again), views, refunds);
  }

  /** What one full sweep leaves of a row, by the Hub's view of it. */
  lemma SweptRowIs(db: BankDb, after: BankDb, stale: seq<Uuid>, views: Uuid -> HubView, id: Uuid)
    requires SweptTo(db, after, stale, views) && id in stale && id in db.interbank && db.interbank[id].status == DEBITED
    ensures id in after.interbank
    ensures after.interbank[id] == match views(id)
                                   case NotFound => db.interbank[id].(status := COMPENSATED)
                                   case Unavailable | NoResponse => db.interbank[id]
                                   case Found(status) =>
                                     if status == HubModel.PENDING then db.interbank[id]
                                     else if status == HubModel.CONFIRMED then db.interbank[id].(status := CONFIRMED)
                                     else db.interbank[id].(status := COMPENSATED)
  {
  }

  /** One full sweep gives each stale transfer the status the Hub's view of it calls for: CONFIRMED
      for a confirmed settlement, COMPENSATED for a reversed or rejected one and for none at all,
      and DEBITED still for a PENDING one or no answer. It changes no other row, counts exactly
      the settled ones, and sweeping again with the same views changes nothing. */
  lemma SweepIsExact(db: BankDb, aged: seq<Uuid>, views: Uuid -> HubView, refunds: seq<Uuid>,
                     again: seq<Uuid>, moreRefunds: seq<Uuid>, id: Uuid)
    requires RowsOk(db) && (forall i, j :: 0 <= i < j < |aged| ==> aged[i] != aged[j])
    requires |aged| == |refunds| && forall i :: 0 <= i < |refunds| ==> refunds[i] !in db.transfers
    requires forall i, j :: 0 <= i < j < |refunds| ==> refunds[i] != refunds[j]
    requires |again| <= |moreRefunds| && forall x :: x in again ==> x in aged
    requires id in db.interbank
    ensures var stale := StaleDebited(db, aged);
            var after := Swept(db, stale, views, refunds);
            var left := StaleDebited(after, again);
            && RowsOk(after) && after.interbank.Keys == db.interbank.Keys
            && after.interbank[id] ==
               (if id !in aged || db.interbank[id].status != DEBITED then db.interbank[id]
                else
                  match views(id)
                  case NotFound => db.interbank[id].(status := COMPENSATED)
                  case Unavailable | NoResponse => db.interbank[id]
                  case Found(status) =>
                    if status == HubModel.PENDING then db.interbank[id]
                    else if status == HubModel.CONFIRMED then db.interbank[id].(status := CONFIRMED)
                    else db.interbank[id].(status := COMPENSATED))
            && Reconciled(stale, views) == Settled(after, stale)
            && Swept(after, left, views, moreRefunds) == after && Reconciled(left, views) == 0
  {
    var stale := StaleDebited(db, aged);
    var after := Swept(db, stale, views, refunds);
    FullSweep(db, aged, views, refunds);
    SweptStatuses(db, after, stale, views);
    SweepIsIdempotent(db, after, aged, views, again, moreRefunds);
    if id in stale {
      SweptRowIs(db, after, stale, views, id);
    }
  }

  /** A sweep cut short by a missing response loses nothing: a later full sweep, for which the
      Hub's earlier answers still stand, leaves every saga row as if it had run alone. */
  lemma InterruptedSweepIsResumed(db: BankDb, aged: seq<Uuid>, views: Uuid -> HubView, refunds: seq<Uuid>,
                                  later: Uuid -> HubView, laterRefunds: seq<Uuid>, oneRefunds: seq<Uuid>)
    requires RowsOk(db) && Distinct(aged)
    requires |refunds| == |laterRefunds| == |oneRefunds| == |aged|
    requires FreshRefunds(db, refunds) && FreshRefunds(db, oneRefunds)
    requires var cut := Swept(db, Reached(StaleDebited(db, aged), views), views, refunds);
             FreshRefunds(cut, laterRefunds)
    requires forall id :: VerdictOf(views(id)).Some? ==> later(id) == views(id)
    ensures var cut := Swept(db, Reached(StaleDebited(db, aged), views), views, refunds);
            Swept(cut, StaleDebited(cut, aged), later, laterRefunds).interbank ==
            Swept(db, StaleDebited(db, aged), later, oneRefunds).interbank
  {
    CutSweep(db, aged, views, refunds);
    var reached := Reached(StaleDebited(db, aged), views);
    var cut := Swept(db, reached, views, refunds);
    FullSweep(cut, aged, later, laterRefunds);
    FullSweep(db, aged, later, oneRefunds);
    ResumedRows(db, cut, aged, reached, views, later);
  }

  lemma ResumedRows(db: BankDb, cut: BankDb, aged: seq<Uuid>, reached: seq<Uuid>, views: Uuid -> HubView,
                    later: Uuid -> HubView)
    requires SweptTo(db, cut, reached, views) && reached <= StaleDebited(db, aged)
    requires forall id :: VerdictOf(views(id)).Some? ==> later(id) == views(id)
    ensures forall id :: id in db.interbank ==>
              RowAfter(cut.interbank[id], id, StaleDebited(cut, aged), later) ==
              RowAfter(db.interbank[id], id, StaleDebited(db, aged), later)
    ensures cut.interbank.Keys == db.interbank.Keys
  {
    var stale := StaleDebited(db, aged);
    assert forall i :: 0 <= i < |reached| ==> reached[i] == stale[i] && reached[i] in stale;
  }
}
