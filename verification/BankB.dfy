/**
 Bank B's inbound consumer: one row per transfer id decides the verdict, and crediting a payee is
 paired with a debit of a suspense account of its own.
 */
module BankB {
  import opened Prelude
  import opened Totals
  import opened Ledger
  import opened Deliveries

  /** What comes of a payee reference: it is no UUID, so there is no such account; the service
      takes it for one and the database does not; or it names an account, in whatever spelling. */
  datatype Parse = NotUuid | Refused | Names(account: Uuid)

  /** The text a row stores, as it was sent, and what comes of it. */
  datatype Reference = Reference(text: string, parse: Parse)

  const SUSPENSE: Uuid := 0x1
  const ACCOUNT_NOT_FOUND := "ACCOUNT_NOT_FOUND"

  datatype Initiated = Initiated(id: Uuid, payee: Reference, amount: int)

  datatype Status = CREDITED | REJECTED

  datatype Incoming = Incoming(payee: Reference, amount: int, status: Status, rejectReason: Option<string>)

  datatype Reply = Accepted(id: Uuid) | Rejected(id: Uuid, reason: Option<string>)

  datatype BankDb = BankDb(
    accounts: set<Uuid>,
    incoming: map<Uuid, Incoming>,
    ledger: seq<Entry<Uuid>>)

  const EMPTY := BankDb({SUSPENSE}, map[], [])

  // ----- the transaction --------------------------------------------------------------------

  /** The amounts the table takes: positive, and within a BIGINT. */
  predicate AmountOk(amount: int) {
    0 < amount <= MAX_BIGINT
  }

  /** An event whose row breaks the CHECK, or whose reference the database refuses, makes the
      call fail. */
  predicate RowChecks(e: Initiated) {
    AmountOk(e.amount) && !e.payee.parse.Refused?
  }

  /** The account lookup. */
  function Payee(accounts: set<Uuid>, payee: Reference): Option<Uuid> {
    if payee.parse.Names? && payee.parse.account in accounts then Some(payee.parse.account) else None
  }

  function RowFor(e: Initiated, known: bool): Incoming {
    if known then Incoming(e.payee, e.amount, CREDITED, None)
    else Incoming(e.payee, e.amount, REJECTED, Some(ACCOUNT_NOT_FOUND))
  }

  function ReplyFor(id: Uuid, row: Incoming): Reply {
    if row.status == CREDITED then Accepted(id) else Rejected(id, row.rejectReason)
  }

  /** The tables after the transaction of one delivery. */
  function Received(db: BankDb, e: Initiated): BankDb {
    var payee := Payee(db.accounts, e.payee);
    if !RowChecks(e) || e.id in db.incoming then db
    else db.(
      incoming := db.incoming[e.id := RowFor(e, payee.Some?)],
      ledger := if payee.Some? then db.ledger + Movement(e.id, SUSPENSE, payee.value, e.amount) else db.ledger)
  }

  /** What one delivery does: a new id with a storable amount and a reference the database takes
      gets one row with the payee and amount sent. It is CREDITED, with a suspense debit and a
      payee credit, exactly when the reference names an account; otherwise REJECTED, with nothing
      in the ledger. Anything else changes nothing. */
  lemma ReceivedMeans(db: BankDb, e: Initiated)
    ensures Received(db, e).accounts == db.accounts
    ensures e.id in db.incoming || !(0 < e.amount <= 9223372036854775807) || e.payee.parse == Refused ==>
              Received(db, e) == db
    ensures e.id !in db.incoming && 0 < e.amount <= 9223372036854775807 && e.payee.parse != Refused ==>
              if e.payee.parse.Names? && e.payee.parse.account in db.accounts then
                var account := e.payee.parse.account;
                && Received(db, e).incoming == db.incoming[e.id := Incoming(e.payee, e.amount, CREDITED, None)]
                && Received(db, e).ledger ==
                   db.ledger + [Entry(e.id, SUSPENSE, -e.amount), Entry(e.id, account, e.amount)]
                && (account != SUSPENSE ==>
                      BalanceOf(Received(db, e).ledger, account) == BalanceOf(db.ledger, account) + e.amount)
              else
                && Received(db, e).incoming ==
                   db.incoming[e.id := Incoming(e.payee, e.amount, REJECTED, Some("ACCOUNT_NOT_FOUND"))]
                && Received(db, e).ledger == db.ledger
  {
    var payee := Payee(db.accounts, e.payee);
    if payee.Some? {
      AppendMovement(db.ledger, e.id, SUSPENSE, payee.value, e.amount, payee.value, e.id);
    }
  }

  // ----- the invariant ----------------------------------------------------------------------

  predicate Credited(row: Incoming) {
    row.status == CREDITED && row.payee.parse.Names?
  }

  function EntriesDue(id: Uuid, row: Incoming): seq<Entry<Uuid>> {
    if Credited(row) then Movement(id, SUSPENSE, row.payee.parse.account, row.amount) else []
  }

  /** Money credited to an account other than suspense, however the reference spelled it. */
  function Credits(incoming: map<Uuid, Incoming>): map<Uuid, int> {
    map id | id in incoming ::
      if Credited(incoming[id]) && incoming[id].payee.parse.account != SUSPENSE then incoming[id].amount else 0
  }

  predicate RowOk(db: BankDb, id: Uuid) {
    var entries := EntriesFor(db.ledger, id);
    if id in db.incoming then
      var row := db.incoming[id];
      && 0 < row.amount && entries == EntriesDue(id, row)
      && (row.status == CREDITED ==> row.payee.parse.Names? && row.payee.parse.account in db.accounts)
      && row.rejectReason == (if row.status == REJECTED then Some(ACCOUNT_NOT_FOUND) else None)
    else entries == []
  }

  ghost predicate BankOk(db: BankDb) {
    && (forall id :: RowOk(db, id))
    && BalanceOf(db.ledger, SUSPENSE) == -Total(Credits(db.incoming))
  }

  /** In every reachable state: the row of an id decides its entries and its answer. */
  lemma RowMeans(db: BankDb, id: Uuid)
    requires BankOk(db)
    ensures id !in db.incoming ==> EntriesFor(db.ledger, id) == []
    ensures id in db.incoming ==>
              var row := db.incoming[id];
              && (row.status == CREDITED ==>
                    && row.payee.parse.Names? && row.payee.parse.account in db.accounts && row.rejectReason == None
                    && EntriesFor(db.ledger, id) ==
                       [Entry(id, SUSPENSE, -row.amount), Entry(id, row.payee.parse.account, row.amount)]
                    && ReplyFor(id, row) == Accepted(id))
              && (row.status == REJECTED ==>
                    && row.rejectReason == Some("ACCOUNT_NOT_FOUND") && EntriesFor(db.ledger, id) == []
                    && ReplyFor(id, row) == Rejected(id, Some("ACCOUNT_NOT_FOUND")))
  {
    assert RowOk(db, id);
  }

  lemma EmptyBankOk()
    ensures BankOk(EMPTY)
  {
    assert Credits(EMPTY.incoming) == map[];
  }

  lemma ReceivedKeepsRowOk(db: BankDb, e: Initiated, id: Uuid)
    requires RowOk(db, id)
    ensures RowOk(Received(db, e), id)
  {
    var payee := Payee(db.accounts, e.payee);
    if payee.Some? {
      AppendMovement(db.ledger, e.id, SUSPENSE, payee.value, e.amount, SUSPENSE, id);
    }
  }

  lemma ReceivedKeepsBankOk(db: BankDb, e: Initiated)
    requires BankOk(db)
    ensures BankOk(Received(db, e))
  {
    var db' := Received(db, e);
    forall id ensures RowOk(db', id) {
      assert RowOk(db, id);
      ReceivedKeepsRowOk(db, e, id);
    }
    ReceivedKeepsSuspense(db, e);
  }

  lemma ReceivedKeepsSuspense(db: BankDb, e: Initiated)
    requires BalanceOf(db.ledger, SUSPENSE) == -Total(Credits(db.incoming))
    ensures BalanceOf(Received(db, e).ledger, SUSPENSE) == -Total(Credits(Received(db, e).incoming))
  {
    var payee := Payee(db.accounts, e.payee);
    if RowChecks(e) && e.id !in db.incoming {
      CreditsPush(db.incoming, e.id, RowFor(e, payee.Some?));
      if payee.Some? {
        AppendMovement(db.ledger, e.id, SUSPENSE, payee.value, e.amount, SUSPENSE, 0);
      }
    }
  }

  lemma CreditsPush(incoming: map<Uuid, Incoming>, id: Uuid, row: Incoming)
    requires id !in incoming
    ensures Total(Credits(incoming[id := row])) ==
            Total(Credits(incoming)) + if Credited(row) && row.payee.parse.account != SUSPENSE then row.amount else 0
  {
    var credit := if Credited(row) && row.payee.parse.account != SUSPENSE then row.amount else 0;
    TotalUpdate(Credits(incoming), id, credit);
    assert Credits(incoming[id := row]) == Credits(incoming)[id := credit];
  }

  // ----- concurrent deliveries --------------------------------------------------------------

  datatype Phase = Started | Deciding | Lost | Done(reply: Result<Reply, ()>)

  datatype Call = Call(event: Initiated, phase: Phase)

  /** `committed` lists the events in the order their transactions committed or were skipped. */
  datatype World = World(db: BankDb, calls: map<nat, Call>, committed: seq<Initiated>)

  datatype Action = Deliver(call: nat, event: Initiated) | Find(call: nat) | Transact(call: nat) | FindWinner(call: nat)
                  | Fail(call: nat)

  predicate Enabled(w: World, a: Action) {
    match a
    case Deliver(c, _) => c !in w.calls
    case Find(c) => c in w.calls && w.calls[c].phase == Started
    case Transact(c) => c in w.calls && w.calls[c].phase == Deciding
    case FindWinner(c) => c in w.calls && w.calls[c].phase == Lost
    case Fail(c) => c in w.calls && !w.calls[c].phase.Done?
  }

  function Answered(db: BankDb, id: Uuid): Phase {
    if id in db.incoming then Done(Ok(ReplyFor(id, db.incoming[id]))) else Done(Err(()))
  }

  /** `Transact` is the whole transaction: a concurrent insert of the same id waits, and is
      skipped once the first one has committed. */
  function Do(w: World, a: Action): World
    requires Enabled(w, a)
  {
    match a
    case Deliver(c, e) => w.(calls := w.calls[c := Call(e, Started)])
    case Find(c) =>
      var e := w.calls[c].event;
      w.(calls := w.calls[c := Call(e, if e.id in w.db.incoming then Answered(w.db, e.id) else Deciding)])
    case Transact(c) =>
      var e := w.calls[c].event;
      var db' := Received(w.db, e);
      var phase :=
        if !RowChecks(e) then Done(Err(()))
        else if e.id in w.db.incoming then Lost
        else Answered(db', e.id);
      World(db', w.calls[c := Call(e, phase)], w.committed + [e])
    case FindWinner(c) => w.(calls := w.calls[c := w.calls[c].(phase := Answered(w.db, w.calls[c].event.id))])
    case Fail(c) => w.(calls := w.calls[c := w.calls[c].(phase := Done(Err(())))])
  }

  predicate Legal(w: World, run: seq<Action>)
    decreases |run|
  {
    run == [] || (Enabled(w, run[0]) && Legal(Do(w, run[0]), run[1..]))
  }

  function After(w: World, run: seq<Action>): World
    requires Legal(w, run)
    decreases |run|
  {
    if run == [] then w else After(Do(w, run[0]), run[1..])
  }

  function EventId(e: Initiated): Uuid {
    e.id
  }

  function Valid(): Initiated -> bool {
    (e: Initiated) => RowChecks(e)
  }

  function ReceiveAll(db: BankDb, events: seq<Initiated>): BankDb
    decreases |events|
  {
    if events == [] then db
    else ReceiveAll(Received(db, events[0]), events[1..])
  }

  lemma {:induction false} ReceivePush(db: BankDb, events: seq<Initiated>, e: Initiated)
    ensures var before := ReceiveAll(db, events);
            before.accounts == db.accounts &&
            ReceiveAll(db, events + [e]) == Received(before, e)
    decreases |events|
  {
    if events == [] {
      assert ([] + [e])[1..] == [];
    } else {
      assert (events + [e])[1..] == events[1..] + [e];
      ReceivePush(Received(db, events[0]), events[1..], e);
    }
  }

  lemma {:induction false} OnlyFirstValidEventsMatter(db: BankDb, events: seq<Initiated>)
    ensures ReceiveAll(db, events) == ReceiveAll(db, FirstValid(EventId, Valid(), db.incoming.Keys, events))
    decreases |events|
  {
    if events != [] {
      var e := events[0];
      var db' := Received(db, e);
      OnlyFirstValidEventsMatter(db', events[1..]);
      if RowChecks(e) && e.id !in db.incoming {
        var rest := FirstValid(EventId, Valid(), db.incoming.Keys + {e.id}, events[1..]);
        assert db'.incoming.Keys == db.incoming.Keys + {e.id};
        assert ([e] + rest)[0] == e && ([e] + rest)[1..] == rest;
      } else {
        assert db' == db;
      }
    }
  }

  predicate AnsweredOk(call: Call) {
    call.phase.Done? && call.phase.reply.Ok?
  }

  predicate CallOk(db: BankDb, call: Call) {
    && (call.phase == Lost ==> call.event.id in db.incoming)
    && (AnsweredOk(call) ==>
          call.event.id in db.incoming && call.phase.reply.value == ReplyFor(call.event.id, db.incoming[call.event.id]))
  }

  ghost predicate Inv(start: BankDb, w: World) {
    && BankOk(w.db)
    && w.db == ReceiveAll(start, w.committed) && w.db.accounts == start.accounts
    && forall c :: c in w.calls ==> CallOk(w.db, w.calls[c])
  }

  lemma StepKeepsCalls(w: World, a: Action)
    requires Enabled(w, a) && forall c :: c in w.calls ==> CallOk(w.db, w.calls[c])
    ensures forall c :: c in Do(w, a).calls ==> CallOk(Do(w, a).db, Do(w, a).calls[c])
  {
  }

  lemma StepKeepsInv(start: BankDb, w: World, a: Action)
    requires Inv(start, w) && Enabled(w, a)
    ensures Inv(start, Do(w, a))
  {
    StepKeepsCalls(w, a);
    if a.Transact? {
      var e := w.calls[a.call].event;
      ReceivedKeepsBankOk(w.db, e);
      ReceivePush(start, w.committed, e);
    }
  }

  lemma {:induction false} RunKeepsInv(start: BankDb, w: World, run: seq<Action>)
    requires Inv(start, w) && Legal(w, run)
    ensures Inv(start, After(w, run))
    decreases |run|
  {
    if run != [] {
      StepKeepsInv(start, w, run[0]);
      RunKeepsInv(start, Do(w, run[0]), run[1..]);
    }
  }

  /** Over any interleaving of deliveries and redeliveries with a fixed account set: the tables
      are those of the first valid event per transfer id alone, every answered delivery of an
      id carries the one verdict recorded for it, accepted exactly when the payee was credited,
      and suspense mirrors what was credited. */
  lemma ExactlyOnceCrediting(db: BankDb, run: seq<Action>, c: nat, d: nat)
    requires BankOk(db) && Legal(World(db, map[], []), run)
    requires c in After(World(db, map[], []), run).calls && d in After(World(db, map[], []), run).calls
    ensures var w := After(World(db, map[], []), run);
            var one, other := w.calls[c], w.calls[d];
            && w.db == ReceiveAll(db, FirstValid(EventId, Valid(), db.incoming.Keys, w.committed))
            && BankOk(w.db)
            && BalanceOf(w.db.ledger, SUSPENSE) == -Total(Credits(w.db.incoming))
            && (one.phase.Done? && one.phase.reply.Ok? ==>
                  var id := one.event.id;
                  && id in w.db.incoming
                  && var row := w.db.incoming[id];
                     one.phase.reply.value == (if row.status == CREDITED then Accepted(id)
                                               else Rejected(id, Some("ACCOUNT_NOT_FOUND")))
                     && EntriesFor(w.db.ledger, id) ==
                        if one.phase.reply.value.Accepted? && row.payee.parse.Names? then
                          [Entry(id, SUSPENSE, -row.amount), Entry(id, row.payee.parse.account, row.amount)]
                        else [])
            && (AnsweredOk(one) && AnsweredOk(other) && one.event.id == other.event.id ==> one.phase == other.phase)
  {
    var start := World(db, map[], []);
    RunKeepsInv(db, start, run);
    var w := After(start, run);
    OnlyFirstValidEventsMatter(db, w.committed);
    assert CallOk(w.db, w.calls[c]) && CallOk(w.db, w.calls[d]);
    RowMeans(w.db, w.calls[c].event.id);
  }

  /** The row that was lost to a concurrent delivery is there when the loser looks again. */
  lemma WinnerIsFound(db: BankDb, run: seq<Action>, c: nat)
    requires BankOk(db) && Legal(World(db, map[], []), run)
    requires c in After(World(db, map[], []), run).calls && After(World(db, map[], []), run).calls[c].phase == Lost
    ensures Enabled(After(World(db, map[], []), run), FindWinner(c))
    ensures Do(After(World(db, map[], []), run), FindWinner(c)).calls[c].phase.reply.Ok?
  {
    RunKeepsInv(db, World(db, map[], []), run);
    var w := After(World(db, map[], []), run);
    assert CallOk(w.db, w.calls[c]);
  }

  /** A delivery that reaches its transaction after another one has committed changes nothing, and
      answers with the verdict of the row that is there. */
  lemma LoserAnswersWithWinner(db: BankDb, run: seq<Action>, c: nat)
    requires BankOk(db) && Legal(World(db, map[], []), run)
    requires var w := After(World(db, map[], []), run);
             && c in w.calls && w.calls[c].phase == Deciding
             && w.calls[c].event.id in w.db.incoming
             && 0 < w.calls[c].event.amount <= 9223372036854775807 && w.calls[c].event.payee.parse != Refused
    ensures var w := After(World(db, map[], []), run);
            var race, id := [Transact(c), FindWinner(c)], w.calls[c].event.id;
            && Legal(w, race) && After(w, race).db == w.db && c in After(w, race).calls
            && After(w, race).calls[c].phase ==
               Done(Ok(if w.db.incoming[id].status == CREDITED then Accepted(id)
                       else Rejected(id, Some("ACCOUNT_NOT_FOUND"))))
  {
    RunKeepsInv(db, World(db, map[], []), run);
    var w := After(World(db, map[], []), run);
    RowMeans(w.db, w.calls[c].event.id);
    var lost := Do(w, Transact(c));
    LegalCons(lost, FindWinner(c), []);
    LegalCons(w, Transact(c), [FindWinner(c)] + []);
    assert [Transact(c)] + ([FindWinner(c)] + []) == [Transact(c), FindWinner(c)];
  }

  /** Any event may arrive at any time, any number of times, and any unfinished delivery may
      fail. */
  lemma AnythingMayArriveOrFail(w: World, c: nat, e: Initiated)
    ensures c !in w.calls ==>
              && Enabled(w, Deliver(c, e))
              && Do(w, Deliver(c, e)) == World(w.db, w.calls[c := Call(e, Started)], w.committed)
    ensures c in w.calls && !w.calls[c].phase.Done? ==>
              && Enabled(w, Fail(c))
              && Do(w, Fail(c)) == World(w.db, w.calls[c := Call(w.calls[c].event, Done(Err(())))], w.committed)
  {
  }

  lemma LegalCons(w: World, a: Action, rest: seq<Action>)
    requires Enabled(w, a) && Legal(Do(w, a), rest)
    ensures Legal(w, [a] + rest) && After(w, [a] + rest) == After(Do(w, a), rest)
  {
    assert ([a] + rest)[1..] == rest;
  }

  /** The tables, and the call that led to them, after an uninterrupted delivery. */
  function Handled(w: World, c: nat, e: Initiated): World {
    var db' := Received(w.db, e);
    World(db', w.calls[c := Call(e, Answered(db', e.id))],
          if e.id in w.db.incoming then w.committed else w.committed + [e])
  }

  /** What `Handle` does to the tables and answers is a run of the machine: lookup, then the
      transaction unless the row was there. */
  lemma HandleIsARun(w: World, c: nat, e: Initiated) returns (run: seq<Action>)
    requires c !in w.calls
    ensures Legal(w, run) && After(w, run) == Handled(w, c, e)
    ensures c in After(w, run).calls
    ensures After(w, run).calls[c].phase ==
              if e.id !in After(w, run).db.incoming then Done(Err(()))
              else
                var row := After(w, run).db.incoming[e.id];
                Done(Ok(if row.status == CREDITED then Accepted(e.id) else Rejected(e.id, row.rejectReason)))
  {
    var delivered := Do(w, Deliver(c, e));
    var found := Do(delivered, Find(c));
    run := if e.id in w.db.incoming then [] else [Transact(c)];
    assert e.id !in w.db.incoming && !RowChecks(e) ==> Received(w.db, e) == w.db;
    if run != [] {
      LegalCons(found, Transact(c), []);
      assert Do(found, Transact(c)).calls == Handled(w, c, e).calls;
    } else {
      assert found.calls == Handled(w, c, e).calls;
    }
    LegalCons(delivered, Find(c), run);
    LegalCons(w, Deliver(c, e), [Find(c)] + run);
    run := [Deliver(c, e)] + ([Find(c)] + run);
  }

  // ----- the service ------------------------------------------------------------------------

  class InboundTransfersService {
    var accounts: set<Uuid>
    var incoming: map<Uuid, Incoming>
    var ledger: seq<Entry<Uuid>>

    ghost function Db(): BankDb
      reads this
    {
      BankDb(accounts, incoming, ledger)
    }

    constructor ()
      ensures Db() == EMPTY && BankOk(Db())
    {
      accounts, incoming, ledger := {SUSPENSE}, map[], [];
      EmptyBankOk();
    }

    /** Writes the row unless the id is taken; the CHECK on the amount applies either way. */
    method TryInsert(id: Uuid, row: Incoming) returns (inserted: Result<Option<Incoming>, ()>)
      modifies `incoming
      ensures inserted == if !AmountOk(row.amount) then Err(())
                          else if id in old(incoming) then Ok(None)
                          else Ok(Some(row))
      ensures incoming == if inserted == Ok(Some(row)) then old(incoming)[id := row] else old(incoming)
    {
      if !AmountOk(row.amount) {
        return Err(());
      }
      if id in incoming {
        return Ok(None);
      }
      incoming := incoming[id := row];
      return Ok(Some(row));
    }

    method AppendEntries(entries: seq<Entry<Uuid>>)
      modifies `ledger
      ensures ledger == old(ledger) + entries
    {
      for i := 0 to |entries|
        invariant ledger == old(ledger) + entries[..i]
      {
        ledger := ledger + [entries[i]];
        assert entries[..i + 1] == entries[..i] + [entries[i]];
      }
      assert entries[..|entries|] == entries;
    }

    /** The transaction and, when another delivery of the id won, the second lookup. */
    method Decide(e: Initiated) returns (result: Result<Reply, ()>)
      modifies `incoming, `ledger
      ensures Db() == Received(old(Db()), e)
      ensures result.Ok? <==> 0 < e.amount <= 9223372036854775807 && e.payee.parse != Refused
      ensures result.Ok? ==>
                && e.id in incoming
                && result.value == if incoming[e.id].status == CREDITED then Accepted(e.id)
                                   else Rejected(e.id, incoming[e.id].rejectReason)
      ensures result.Ok? && e.id !in old(incoming) ==>
                if e.payee.parse.Names? && e.payee.parse.account in accounts then
                  && incoming == old(incoming)[e.id := Incoming(e.payee, e.amount, CREDITED, None)]
                  && ledger == old(ledger)
                               + [Entry(e.id, SUSPENSE, -e.amount), Entry(e.id, e.payee.parse.account, e.amount)]
                else
                  && incoming == old(incoming)[e.id := Incoming(e.payee, e.amount, REJECTED, Some("ACCOUNT_NOT_FOUND"))]
                  && ledger == old(ledger)
      ensures result.Err? || e.id in old(incoming) ==> incoming == old(incoming) && ledger == old(ledger)
    {
      if e.payee.parse.Refused? {
        return Err(());
      }
      var payee, record := Payee(accounts, e.payee), Err(());
      if payee.None? {
        record := TryInsert(e.id, RowFor(e, false));
      } else {
        record := TryInsert(e.id, RowFor(e, true));
        if record.Ok? && record.value.Some? {
          AppendEntries(Movement(e.id, SUSPENSE, payee.value, e.amount));
        }
      }
      if record.Err? {
        return Err(());
      }
      if record.value.Some? {
        return Ok(ReplyFor(e.id, record.value.value));
      }
      return Ok(ReplyFor(e.id, incoming[e.id]));
    }

    /** Credits the payee once per transfer id and answers every delivery with the recorded
        verdict. */
    method Handle(e: Initiated) returns (result: Result<Reply, ()>)
      modifies `incoming, `ledger
      ensures Db() == Received(old(Db()), e)
      ensures result.Err? <==>
                e.id !in old(incoming) && (!(0 < e.amount <= 9223372036854775807) || e.payee.parse == Refused)
      ensures result.Ok? ==>
                && e.id in incoming
                && result.value == if incoming[e.id].status == CREDITED then Accepted(e.id)
                                   else Rejected(e.id, incoming[e.id].rejectReason)
      ensures result.Ok? && e.id !in old(incoming) ==>
                if e.payee.parse.Names? && e.payee.parse.account in accounts then
                  && incoming == old(incoming)[e.id := Incoming(e.payee, e.amount, CREDITED, None)]
                  && ledger == old(ledger)
                               + [Entry(e.id, SUSPENSE, -e.amount), Entry(e.id, e.payee.parse.account, e.amount)]
                  && result.value == Accepted(e.id)
                else
                  && incoming == old(incoming)[e.id := Incoming(e.payee, e.amount, REJECTED, Some("ACCOUNT_NOT_FOUND"))]
                  && ledger == old(ledger) && result.value == Rejected(e.id, Some("ACCOUNT_NOT_FOUND"))
      ensures result.Err? || e.id in old(incoming) ==> incoming == old(incoming) && ledger == old(ledger)
      ensures old(BankOk(Db())) ==> BankOk(Db())
      ensures old(BankOk(Db())) && result.Ok? ==>
                result.value == if incoming[e.id].status == CREDITED then Accepted(e.id)
                                else Rejected(e.id, Some("ACCOUNT_NOT_FOUND"))
    {
      ghost var before := Db();
      if BankOk(before) {
        ReceivedKeepsBankOk(before, e);
        RowMeans(Received(before, e), e.id);
      }
      if e.id in incoming {
        return Ok(ReplyFor(e.id, incoming[e.id]));
      }
      result := Decide(e);
    }
  }
}
