/** The Hub's service over its tables; each public method is one call with its transaction. */
module HubService {
  import opened Prelude
  import opened Ledger
  import opened Outbox
  import opened HubModel
  import H = HubRuns

  datatype Error = InvalidAmount | SameBankSettlement | ConstraintViolation | SettlementNotFound

  /** What the domain constructor says to a settlement row read back for its reversal. */
  function ReversalAnswer(s: Settlement): Result<(), Error> {
    if !IsSafeInteger(s.amount) || s.amount <= 0 then Err(InvalidAmount)
    else if s.payer == s.payee then Err(SameBankSettlement)
    else Ok(())
  }

  /** Whether `handleReply` throws. */
  function ReplyAnswer(db: HubDb, r: Reply): Result<(), Error> {
    if r.id !in db.settlements then Err(SettlementNotFound)
    else if db.settlements[r.id].status != PENDING || r.answer == CONFIRMED then Ok(())
    else ReversalAnswer(db.settlements[r.id])
  }

  /** A Hub in order throws on unknown settlements only, and stays in order. */
  lemma ReplyKeepsHubOk(db: HubDb, r: Reply)
    requires HubOk(db)
    ensures ReplyAnswer(db, r) == if r.id in db.settlements then Ok(()) else Err(SettlementNotFound)
    ensures r.id in db.settlements && db.settlements[r.id].status == PENDING ==> HubOk(Replied(db, r))
  {
    if r.id in db.settlements {
      assert SettlementOk(db.settlements[r.id], db.banks);
      if db.settlements[r.id].status == PENDING {
        ReplyOnPendingKeepsHubOk(db, r);
      }
    }
  }

  class SettlementsService {
    var banks: set<BankId>
    var settlements: map<Uuid, Settlement>
    var ledger: seq<Entry<BankId>>
    var outbox: seq<Row<Event>>
    var published: set<nat>

    ghost function Db(): HubDb
      reads this
    {
      HubDb(banks, settlements, ledger, outbox, published)
    }

    constructor ()
      ensures Db() == EMPTY_HUB
    {
      banks, settlements, ledger, outbox, published := {}, map[], [], [], {};
    }

    // ----- repositories ---------------------------------------------------------------------

    /** Writes a settlement unless its id is taken. The CHECK constraints apply to every row
        offered, the foreign key of the payer only to one that is written. */
    method InsertSettlement(id: Uuid, row: Settlement) returns (inserted: Result<bool, Error>)
      modifies `settlements
      ensures var checks := RowChecks(Request(id, row.payer, row.payee, row.accountRef, row.amount));
              if !checks || (id !in old(settlements) && row.payer !in banks) then
                inserted == Err(ConstraintViolation) && settlements == old(settlements)
              else if id in old(settlements) then inserted == Ok(false) && settlements == old(settlements)
              else inserted == Ok(true) && settlements == old(settlements)[id := row]
    {
      if !RowChecks(Request(id, row.payer, row.payee, row.accountRef, row.amount)) {
        return Err(ConstraintViolation);
      }
      if id in settlements {
        return Ok(false);
      }
      if row.payer !in banks {
        return Err(ConstraintViolation);
      }
      settlements := settlements[id := row];
      return Ok(true);
    }

    method AppendEntries(entries: seq<Entry<BankId>>)
      modifies `ledger
      ensures ledger == old(ledger) + entries
    {
      for i := 0 to |entries|
        invariant ledger == old(ledger) + entries[..i]
      {
        ledger := ledger + [entries[i]];
        assert entries[..i + 1] == entries[..i] + [entries[i]];
      }
      assert entries[..|entries|] == entries;
    }

    method InsertEvent(id: Uuid, event: Event)
      modifies `outbox
      ensures outbox == old(outbox) + [Row(id, event)]
    {
      outbox := outbox + [Row(id, event)];
    }

    method MarkConfirmed(id: Uuid)
      modifies `settlements
      ensures settlements == if id in old(settlements) && old(settlements)[id].status == PENDING
                             then old(settlements)[id := old(settlements)[id].(status := CONFIRMED)]
                             else old(settlements)
    {
      if id in settlements && settlements[id].status == PENDING {
        settlements := settlements[id := settlements[id].(status := CONFIRMED)];
      }
    }

    method MarkReversed(id: Uuid, reason: string)
      modifies `settlements
      ensures settlements == if id !in old(settlements) || old(settlements)[id].status != PENDING then old(settlements)
                             else
                               var s := old(settlements)[id].(status := REVERSED, rejectReason := Some(reason));
                               old(settlements)[id := s]
    {
      if id in settlements && settlements[id].status == PENDING {
        settlements := settlements[id := settlements[id].(status := REVERSED, rejectReason := Some(reason))];
      }
    }

    // ----- the two handlers -----------------------------------------------------------------

    /** Accepts a new settlement with its reserve entries, or records that its payee bank is not
        in the directory. A redelivery changes nothing; a failed call leaves no trace. */
    method HandleRequested(r: Request) returns (result: Result<(), Error>)
      modifies `settlements, `ledger, `outbox
      ensures Db() == Requested(old(Db()), r, r.payee in banks)
      ensures result.Ok? <==>
                && r.payer != r.payee
                && 0 < r.amount <= (if r.payee in banks then 9007199254740991 else 9223372036854775807)
                && 1 <= |r.payee| <= 64 && 1 <= |r.accountRef| <= 255
                && (r.payer in banks || r.id in old(settlements))
      ensures result == Err(InvalidAmount) <==> r.payee in banks && !(0 < r.amount <= 9007199254740991)
      ensures result == Err(SameBankSettlement) <==>
                r.payee in banks && 0 < r.amount <= 9007199254740991 && r.payer == r.payee
      ensures if result.Err? || r.id in old(settlements) then Db() == old(Db())
              else
                && settlements == old(settlements)[r.id :=
                     if r.payee in banks then Settlement(r.payer, r.payee, r.accountRef, r.amount, PENDING, None)
                     else Settlement(r.payer, r.payee, r.accountRef, r.amount, REJECTED, Some("UNKNOWN_PAYEE_BANK"))]
                && outbox == old(outbox) + [Row(r.id,
                     if r.payee in banks then Notify(r.payee, r.payer, r.accountRef, r.amount)
                     else Outcome(r.payer, REJECTED, Some("UNKNOWN_PAYEE_BANK")))]
                && ledger == if r.payee !in banks then old(ledger)
                             else old(ledger) + [Entry(r.id, r.payer, -r.amount), Entry(r.id, r.payee, r.amount)]
      ensures old(HubOk(Db())) ==> HubOk(Db())
    {
      ghost var before := Db();
      if HubOk(before) {
        RequestedKeepsHubOk(before, r, r.payee in banks);
      }
      var known := r.payee in banks;
      var oldSettlements, oldLedger, oldOutbox := settlements, ledger, outbox;
      if !known {
        var inserted := InsertSettlement(r.id, RowFor(r, false));
        if inserted == Ok(true) {
          InsertEvent(r.id, EventFor(r, false));
        }
        result := if inserted.Ok? then Ok(()) else Err(inserted.error);
      } else if !IsSafeInteger(r.amount) || r.amount <= 0 {
        result := Err(InvalidAmount);
      } else if r.payer == r.payee {
        result := Err(SameBankSettlement);
      } else {
        var inserted := InsertSettlement(r.id, RowFor(r, true));
        if inserted == Ok(true) {
          AppendEntries(Movement(r.id, r.payer, r.payee, r.amount));
          InsertEvent(r.id, EventFor(r, true));
        }
        result := if inserted.Ok? then Ok(()) else Err(inserted.error);
      }
      if result.Err? {
        settlements, ledger, outbox := oldSettlements, oldLedger, oldOutbox;
      }
    }

    /** Applies a payee bank's answer once; later and repeated answers change nothing. */
    method HandleReply(r: Reply) returns (result: Result<(), Error>)
      modifies `settlements, `ledger, `outbox
      ensures result == ReplyAnswer(old(Db()), r)
      ensures result == Err(SettlementNotFound) <==> r.id !in old(settlements)
      ensures Db() == if result.Ok? && old(settlements)[r.id].status == PENDING
                      then Replied(old(Db()), r) else old(Db())
      ensures result.Ok? && old(settlements)[r.id].status == PENDING ==>
                var s := old(settlements)[r.id];
                && settlements == old(settlements)[r.id :=
                     if r.answer == CONFIRMED then s.(status := CONFIRMED)
                     else s.(status := REVERSED,
                             rejectReason := if r.reason.Some? then r.reason else Some("REJECTED_BY_PAYEE_BANK"))]
                && outbox == old(outbox) + [Row(r.id, Outcome(s.payer, r.answer, r.reason))]
                && ledger == if r.answer == CONFIRMED then old(ledger)
                             else old(ledger) + [Entry(r.id, s.payer, s.amount), Entry(r.id, s.payee, -s.amount)]
      ensures old(HubOk(Db())) ==> HubOk(Db()) && (result.Ok? <==> r.id in old(settlements))
    {
      ghost var before := Db();
      if HubOk(before) {
        ReplyKeepsHubOk(before, r);
      }
      if r.id !in settlements {
        return Err(SettlementNotFound);
      }
      if settlements[r.id].status != PENDING {
        return Ok(());
      }
      var read := settlements[r.id];
      result := CommitReply(r, read);
    }

    /** The transaction of a reply, given the row as it was read before it: the status is not
        checked again, and a row the domain refuses to reverse rolls back. */
    method CommitReply(r: Reply, read: Settlement) returns (result: Result<(), Error>)
      requires r.id in settlements && SameTerms(read, settlements[r.id])
      modifies `settlements, `ledger, `outbox
      ensures result == if r.answer == CONFIRMED then Ok(()) else ReversalAnswer(read)
      ensures result.Ok? <==>
                r.answer == CONFIRMED || (0 < read.amount <= 9007199254740991 && read.payer != read.payee)
      ensures Db() == if result.Ok? then Replied(old(Db()), r) else old(Db())
      ensures result.Ok? ==>
                var s := old(settlements)[r.id];
                && settlements == old(settlements)[r.id :=
                     if s.status != PENDING then s
                     else if r.answer == CONFIRMED then s.(status := CONFIRMED)
                     else s.(status := REVERSED,
                             rejectReason := if r.reason.Some? then r.reason else Some("REJECTED_BY_PAYEE_BANK"))]
                && outbox == old(outbox) + [Row(r.id, Outcome(read.payer, r.answer, r.reason))]
                && ledger == if r.answer == CONFIRMED then old(ledger)
                             else old(ledger)
                                  + [Entry(r.id, read.payer, read.amount), Entry(r.id, read.payee, -read.amount)]
    {
      if r.answer == CONFIRMED {
        MarkConfirmed(r.id);
      } else {
        if !IsSafeInteger(read.amount) || read.amount <= 0 {
          return Err(InvalidAmount);
        }
        if read.payer == read.payee {
          return Err(SameBankSettlement);
        }
        AppendEntries(Movement(r.id, read.payer, read.payee, -read.amount));
        MarkReversed(r.id, if r.reason.Some? then r.reason.value else REJECTED_BY_PAYEE_BANK);
      }
      InsertEvent(r.id, Outcome(read.payer, r.answer, r.reason));
      assert settlements == old(settlements)[r.id := Marked(old(settlements)[r.id], r)];
      return Ok(());
    }
  }

  // ----- the service as a run of the machine ------------------------------------------------

  datatype Message = OnRequest(request: Request) | OnReply(reply: Reply)

  /** The tables after handling messages one after the other, failed calls included. */
  function Served(db: HubDb, messages: seq<Message>): HubDb
    decreases |messages|
  {
    if messages == [] then db
    else
      var after := match messages[0]
                   case OnRequest(r) => Requested(db, r, r.payee in db.banks)
                   case OnReply(r) =>
                     if ReplyAnswer(db, r).Ok? && db.settlements[r.id].status == PENDING then Replied(db, r) else db;
      Served(after, messages[1..])
  }

  /** A reply handled by the service without interruption is the machine's read and commit. */
  lemma HandleReplyIsTwoSteps(h: H.Hub, r: Reply)
    requires r.id in h.db.settlements && h.db.settlements[r.id].status == PENDING
    ensures H.Legal(h, [H.Read(r), H.Commit(r)])
    ensures H.After(h, [H.Read(r), H.Commit(r)]) == H.Hub(Replied(h.db, r), h.handlers)
  {
    var read := H.Do(h, H.Read(r));
    H.LegalCons(read, H.Commit(r), []);
    H.LegalCons(h, H.Read(r), [H.Commit(r)]);
    assert H.Do(read, H.Commit(r)).handlers == h.handlers;
  }

  lemma SerialCons(h: H.Hub, a: H.Action, rest: seq<H.Action>)
    requires H.Enabled(h, a) && H.Serial(h, a) && H.Legal(H.Do(h, a), rest) && H.SerialRun(H.Do(h, a), rest)
    ensures H.Legal(h, [a] + rest) && H.SerialRun(h, [a] + rest)
    ensures H.After(h, [a] + rest) == H.After(H.Do(h, a), rest)
  {
    assert ([a] + rest)[1..] == rest;
  }

  lemma {:induction false} SerialConcat(h: H.Hub, first: seq<H.Action>, rest: seq<H.Action>)
    requires H.Legal(h, first) && H.SerialRun(h, first)
    requires H.Legal(H.After(h, first), rest) && H.SerialRun(H.After(h, first), rest)
    ensures H.Legal(h, first + rest) && H.SerialRun(h, first + rest)
    ensures H.After(h, first + rest) == H.After(H.After(h, first), rest)
    decreases |first|
  {
    if first == [] {
      assert first + rest == rest;
    } else {
      SerialConcat(H.Do(h, first[0]), first[1..], rest);
      SerialCons(h, first[0], first[1..] + rest);
      ConcatTail(first, rest);
    }
  }

  /** The steps one handled message takes: a delivery, a read and a commit, or nothing. */
  function Steps(db: HubDb, message: Message): seq<H.Action> {
    match message
    case OnRequest(r) => [H.Deliver(r, r.payee in db.banks)]
    case OnReply(r) =>
      if ReplyAnswer(db, r).Ok? && db.settlements[r.id].status == PENDING then [H.Read(r), H.Commit(r)] else []
  }

  lemma MessageIsSerial(db: HubDb, message: Message)
    ensures var h, steps := H.Hub(db, multiset{}), Steps(db, message);
            H.Legal(h, steps) && H.SerialRun(h, steps) && H.After(h, steps) == H.Hub(Served(db, [message]), multiset{})
  {
    var h := H.Hub(db, multiset{});
    assert [message][1..] == [];
    match message {
      case OnRequest(r) =>
        H.LegalCons(h, H.Deliver(r, r.payee in db.banks), []);
      case OnReply(r) =>
        if Steps(db, message) != [] {
          HandleReplyIsTwoSteps(h, r);
        }
    }
  }

  /** Whatever messages the service handles one at a time, valid or not, new or redelivered, it
      has gone through a serial run of the machine, so the whole Hub invariant holds after. */
  lemma {:induction false} ServiceRunIsSerial(db: HubDb, messages: seq<Message>) returns (run: seq<H.Action>)
    requires HubOk(db)
    ensures var h := H.Hub(db, multiset{});
            H.Legal(h, run) && H.SerialRun(h, run) && H.After(h, run) == H.Hub(Served(db, messages), multiset{})
    ensures HubOk(Served(db, messages))
    decreases |messages|
  {
    var h := H.Hub(db, multiset{});
    if messages == [] {
      run := [];
    } else {
      var steps, next := Steps(db, messages[0]), Served(db, [messages[0]]);
      assert [messages[0]][1..] == [];
      MessageIsSerial(db, messages[0]);
      H.SerialRunKeepsHubInv(h, steps);
      var rest := ServiceRunIsSerial(next, messages[1..]);
      SerialConcat(h, steps, rest);
      run := steps + rest;
    }
  }
}
