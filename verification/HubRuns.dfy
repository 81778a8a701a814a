/**
 The Hub as a concurrent machine: requests are delivered any number of times and in any order,
 and any number of reply handlers are between their status read and their commit.
 */
module HubRuns {
  import opened Prelude
  import opened Ledger
  import opened Outbox
  import opened Deliveries
  import opened HubModel

  /** `handlers` are the calls of `handleReply` that have seen PENDING and not yet committed. */
  datatype Hub = Hub(db: HubDb, handlers: multiset<Reply>)

  datatype Action =
    | Register(bank: BankId)
    | Deliver(request: Request, known: bool)
    | Read(reply: Reply)
    | Commit(reply: Reply)
    | Crash(reply: Reply)
    | MarkPublished(row: nat)

  /** The directory lookup of `Deliver` may be stale; banks are never removed, so only an
      "unknown" answer can be out of date. Replies are arbitrary: the payee bank and the
      transport may produce any of them at any time. */
  predicate Enabled(h: Hub, a: Action) {
    match a
    case Register(_) => true
    case Deliver(r, known) => known ==> r.payee in h.db.banks
    case Read(r) => r.id in h.db.settlements && h.db.settlements[r.id].status == PENDING
    case Commit(r) => r in h.handlers && r.id in h.db.settlements
    case Crash(r) => r in h.handlers
    case MarkPublished(row) => row < |h.db.outbox|
  }

  function Do(h: Hub, a: Action): Hub
    requires Enabled(h, a)
  {
    match a
    case Register(bank) => h.(db := h.db.(banks := h.db.banks + {bank}))
    case Deliver(r, known) => h.(db := Requested(h.db, r, known))
    case Read(r) => h.(handlers := h.handlers + multiset{r})
    case Commit(r) => Hub(Replied(h.db, r), h.handlers - multiset{r})
    case Crash(r) => h.(handlers := h.handlers - multiset{r})
    case MarkPublished(row) => h.(db := h.db.(published := h.db.published + {row}))
  }

  /** One `handleReply` at a time per settlement. */
  predicate Serial(h: Hub, a: Action) {
    a.Read? ==> forall r :: r in h.handlers ==> r.id != a.reply.id
  }

  predicate Legal(h: Hub, run: seq<Action>)
    decreases |run|
  {
    run == [] || (Enabled(h, run[0]) && Legal(Do(h, run[0]), run[1..]))
  }

  predicate SerialRun(h: Hub, run: seq<Action>)
    requires Legal(h, run)
    decreases |run|
  {
    run == [] || (Serial(h, run[0]) && SerialRun(Do(h, run[0]), run[1..]))
  }

  function After(h: Hub, run: seq<Action>): Hub
    requires Legal(h, run)
    decreases |run|
  {
    if run == [] then h else After(Do(h, run[0]), run[1..])
  }

  const START := Hub(EMPTY_HUB, multiset{})

  lemma LegalCons(h: Hub, a: Action, rest: seq<Action>)
    requires Enabled(h, a) && Legal(Do(h, a), rest)
    ensures Legal(h, [a] + rest) && After(h, [a] + rest) == After(Do(h, a), rest)
  {
    assert ([a] + rest)[1..] == rest;
  }

  // ----- with serial handlers ---------------------------------------------------------------

  ghost predicate HubInv(h: Hub) {
    HubOk(h.db) && HandlersOk(h)
  }

  lemma PublishingKeepsHubOk(db: HubDb, row: nat)
    requires HubOk(db)
    ensures HubOk(db.(published := db.published + {row}))
  {
    var db' := db.(published := db.published + {row});
    assert SettlementsOk(db') && LedgerOk(db') && ReservesOk(db') && EventsOk(db');
  }

  lemma StepKeepsHubOk(h: Hub, a: Action)
    requires HubOk(h.db) && Enabled(h, a)
    requires a.Commit? ==> h.db.settlements[a.reply.id].status == PENDING
    ensures HubOk(Do(h, a).db)
  {
    match a
    case Register(bank) => RegisterKeepsHubOk(h.db, bank);
    case Deliver(r, known) => RequestedKeepsHubOk(h.db, r, known);
    case Commit(r) => ReplyOnPendingKeepsHubOk(h.db, r);
    case MarkPublished(row) => PublishingKeepsHubOk(h.db, row);
    case _ =>
  }

  ghost predicate HandlersOk(h: Hub) {
    && (forall r :: r in h.handlers ==> r.id in h.db.settlements && h.db.settlements[r.id].status == PENDING)
    && (forall r, s :: r in h.handlers && s in h.handlers && r.id == s.id ==> r == s && h.handlers[r] == 1)
  }

  lemma CommitKeepsHandlersOk(h: Hub, r: Reply)
    requires HandlersOk(h) && Enabled(h, Commit(r))
    ensures HandlersOk(Do(h, Commit(r)))
  {
    assert forall q :: q in Do(h, Commit(r)).handlers ==> q in h.handlers && q.id != r.id;
  }

  lemma StepKeepsHandlersOk(h: Hub, a: Action)
    requires HandlersOk(h) && Enabled(h, a) && Serial(h, a)
    ensures HandlersOk(Do(h, a))
  {
    match a
    case Commit(r) => CommitKeepsHandlersOk(h, r);
    case _ =>
  }

  lemma StepKeepsHubInv(h: Hub, a: Action)
    requires HubInv(h) && Enabled(h, a) && Serial(h, a)
    ensures HubInv(Do(h, a))
  {
    StepKeepsHubOk(h, a);
    StepKeepsHandlersOk(h, a);
  }

  /** Hub reserves, per-settlement entries and events are exact in every state a serial run
      can reach. */
  lemma {:induction false} SerialRunKeepsHubInv(h: Hub, run: seq<Action>)
    requires HubInv(h) && Legal(h, run) && SerialRun(h, run)
    ensures HubInv(After(h, run))
    decreases |run|
  {
    if run != [] {
      StepKeepsHubInv(h, run[0]);
      SerialRunKeepsHubInv(Do(h, run[0]), run[1..]);
    }
  }

  function Notifications(rows: seq<Row<Event>>): nat {
    if rows == [] then 0
    else Notifications(rows[1..]) + if rows[0].payload.Notify? then 1 else 0
  }

  function Outcomes(rows: seq<Row<Event>>): nat {
    if rows == [] then 0
    else Outcomes(rows[1..]) + if rows[0].payload.Outcome? then 1 else 0
  }

  /** Every reversal is committed on a row that is still PENDING; confirmations may come late
      and often. */
  predicate ReversalsOnPending(h: Hub, run: seq<Action>)
    requires Legal(h, run)
    decreases |run|
  {
    run == [] || (ReversesPending(h, run[0]) && ReversalsOnPending(Do(h, run[0]), run[1..]))
  }

  predicate ReversesPending(h: Hub, a: Action)
    requires Enabled(h, a)
  {
    a.Commit? ==> h.db.settlements[a.reply.id].status == PENDING || a.reply.answer == CONFIRMED
  }

  lemma StepKeepsReserves(h: Hub, a: Action)
    requires ReservesOk(h.db) && Enabled(h, a) && ReversesPending(h, a)
    ensures ReservesOk(Do(h, a).db)
  {
    match a
    case Deliver(r, known) => RequestedKeepsReserves(h.db, r, known);
    case Commit(r) =>
      forall bank ensures BalanceOf(Replied(h.db, r).ledger, bank) == NetReserve(Replied(h.db, r).settlements, bank) {
        RepliedMovesReserves(h.db, r, bank);
      }
    case _ =>
  }

  lemma {:induction false} RunKeepsReserves(h: Hub, run: seq<Action>)
    requires ReservesOk(h.db) && Legal(h, run) && ReversalsOnPending(h, run)
    ensures ReservesOk(After(h, run).db)
    decreases |run|
  {
    if run != [] {
      StepKeepsReserves(h, run[0]);
      RunKeepsReserves(Do(h, run[0]), run[1..]);
    }
  }

  lemma {:induction false} SerialRunReversesPending(h: Hub, run: seq<Action>)
    requires HandlersOk(h) && Legal(h, run) && SerialRun(h, run)
    ensures ReversalsOnPending(h, run)
    decreases |run|
  {
    if run != [] {
      StepKeepsHandlersOk(h, run[0]);
      SerialRunReversesPending(Do(h, run[0]), run[1..]);
    }
  }

  /** Every bank's reserve, folded over the append-only entries, is its incoming minus outgoing
      PENDING and CONFIRMED settlements; reversed and rejected ones net to nothing. One handler
      at a time per settlement is enough, and so is it that no reversal commits late. */
  lemma ReservesAreNet(run: seq<Action>, bank: BankId)
    requires Legal(START, run) && (SerialRun(START, run) || ReversalsOnPending(START, run))
    ensures var db := After(START, run).db; BalanceOf(db.ledger, bank) == NetReserve(db.settlements, bank)
  {
    EmptyHubOk();
    if SerialRun(START, run) {
      SerialRunReversesPending(START, run);
    }
    RunKeepsReserves(START, run);
  }

  /** Whatever was delivered how often: one notification exactly for an accepted settlement, one
      outcome exactly for a terminal one, and the outcome names the status. */
  lemma EventsMatchStatuses(run: seq<Action>, id: Uuid)
    requires Legal(START, run) && SerialRun(START, run)
    ensures var db := After(START, run).db;
            var rows := RowsFor(db.outbox, id);
            && Notifications(rows) == (if id in db.settlements && db.settlements[id].status != REJECTED then 1 else 0)
            && Outcomes(rows) == (if id in db.settlements && db.settlements[id].status != PENDING then 1 else 0)
            && (forall i :: 0 <= i < |rows| && rows[i].payload.Outcome? ==>
                  && id in db.settlements && rows[i].payload.verdict == db.settlements[id].status
                  && rows[i].payload.payerBank == db.settlements[id].payer)
            && (forall i :: 0 <= i < |rows| && rows[i].payload.Notify? ==>
                  && id in db.settlements
                  && var s := db.settlements[id];
                     rows[i].payload == Notify(s.payee, s.payer, s.accountRef, s.amount))
            && (forall i :: 0 <= i < |rows| && rows[i].payload.Outcome? && rows[i].payload.verdict != CONFIRMED ==>
                  && id in db.settlements
                  && db.settlements[id].rejectReason ==
                     if rows[i].payload.reason.Some? then rows[i].payload.reason else Some("REJECTED_BY_PAYEE_BANK"))
  {
    EmptyHubOk();
    SerialRunKeepsHubInv(START, run);
    var db := After(START, run).db;
    if id in db.settlements {
      assert SettlementOk(db.settlements[id], db.banks);
      EventCounts(RowsFor(db.outbox, id), id, db.settlements[id]);
    }
  }

  lemma OneRowCounts(row: Row<Event>)
    ensures Notifications([row]) == if row.payload.Notify? then 1 else 0
    ensures Outcomes([row]) == if row.payload.Outcome? then 1 else 0
  {
    assert [row][1..] == [];
  }

  lemma TwoRowsCount(first: Row<Event>, second: Row<Event>)
    ensures Notifications([first, second]) == Notifications([second]) + if first.payload.Notify? then 1 else 0
    ensures Outcomes([first, second]) == Outcomes([second]) + if first.payload.Outcome? then 1 else 0
  {
    assert [first, second][1..] == [second];
  }

  lemma EventCounts(rows: seq<Row<Event>>, id: Uuid, s: Settlement)
    requires EventsDue(rows, id, s) && (s.status == REJECTED ==> s.rejectReason.Some?)
    ensures Notifications(rows) == if s.status != REJECTED then 1 else 0
    ensures Outcomes(rows) == if s.status != PENDING then 1 else 0
    ensures forall i :: 0 <= i < |rows| && rows[i].payload.Outcome? ==>
              rows[i].payload.verdict == s.status && rows[i].payload.payerBank == s.payer
    ensures forall i :: 0 <= i < |rows| && rows[i].payload.Notify? ==>
              rows[i].payload == Notify(s.payee, s.payer, s.accountRef, s.amount)
    ensures forall i :: 0 <= i < |rows| && rows[i].payload.Outcome? && rows[i].payload.verdict != CONFIRMED ==>
              s.rejectReason == if rows[i].payload.reason.Some? then rows[i].payload.reason
                                else Some("REJECTED_BY_PAYEE_BANK")
  {
    if s.status == PENDING || s.status == REJECTED {
      assert rows == [rows[0]];
      OneRowCounts(rows[0]);
    } else {
      assert rows[0] == rows[..1][0];
      assert rows == [rows[0], rows[1]];
      OneRowCounts(rows[1]);
      TwoRowsCount(rows[0], rows[1]);
    }
  }

  // ----- with any interleaving --------------------------------------------------------------

  /** Handlers work on accepted settlements, and only existing rows are marked published. */
  ghost predicate Live(h: Hub) {
    && (forall r :: r in h.handlers ==> r.id in h.db.settlements && h.db.settlements[r.id].status != REJECTED)
    && (forall row :: row in h.db.published ==> row < |h.db.outbox|)
  }

  /** What survives even when handlers of one settlement overlap. */
  ghost predicate WeakInv(h: Hub) {
    Live(h) && forall id :: Sum(EntriesFor(h.db.ledger, id)) == 0
  }

  /** Nothing recorded is rewritten: ledger and outbox only grow, a settlement never disappears
      or changes its terms, and a terminal status is final. */
  ghost predicate Extends(now: HubDb, later: HubDb) {
    && now.ledger <= later.ledger
    && now.outbox <= later.outbox
    && forall id :: id in now.settlements ==>
        && id in later.settlements
        && var s, t := now.settlements[id], later.settlements[id];
           if s.status == PENDING then
             t == s.(status := t.status, rejectReason := t.rejectReason) && t.status != REJECTED
           else t == s
  }

  /** The empty Hub meets both invariants, and its outcomes are true. */
  lemma StartOk()
    ensures HubInv(START) && WeakInv(START) && OutcomesTrue(START.db)
  {
    EmptyHubOk();
  }

  lemma DeliverExtends(h: Hub, r: Request, known: bool)
    requires Enabled(h, Deliver(r, known)) && Live(h)
    ensures Extends(h.db, Do(h, Deliver(r, known)).db) && Live(Do(h, Deliver(r, known)))
  {
  }

  lemma CommitExtends(h: Hub, r: Reply)
    requires Enabled(h, Commit(r)) && Live(h)
    ensures Extends(h.db, Do(h, Commit(r)).db) && Live(Do(h, Commit(r)))
  {
  }

  lemma StepExtends(h: Hub, a: Action)
    requires Enabled(h, a) && Live(h)
    ensures Extends(h.db, Do(h, a).db) && Live(Do(h, a))
  {
    match a
    case Deliver(r, known) => DeliverExtends(h, r, known);
    case Commit(r) => CommitExtends(h, r);
    case _ =>
  }

  lemma StepKeepsWeakInv(h: Hub, a: Action)
    requires WeakInv(h) && Enabled(h, a)
    ensures WeakInv(Do(h, a)) && Extends(h.db, Do(h, a).db)
  {
    forall id ensures Sum(EntriesFor(Do(h, a).db.ledger, id)) == 0 {
      StepKeepsZeroSum(h, a, id);
    }
    StepExtends(h, a);
  }

  lemma StepKeepsZeroSum(h: Hub, a: Action, id: Uuid)
    requires Sum(EntriesFor(h.db.ledger, id)) == 0 && Enabled(h, a)
    ensures Sum(EntriesFor(Do(h, a).db.ledger, id)) == 0
  {
    match a
    case Deliver(r, known) => MovementKeepsZeroSum(h.db.ledger, r.id, r.payer, r.payee, r.amount, id);
    case Commit(r) =>
      var s := h.db.settlements[r.id];
      MovementKeepsZeroSum(h.db.ledger, r.id, s.payer, s.payee, -s.amount, id);
    case _ =>
  }

  /** Whatever replies arrive and however their handlers interleave, the entries of every
      settlement sum to zero, nothing recorded is rewritten, and a terminal status is final. */
  lemma {:induction false} AnyRunIsZeroSumAndFinal(h: Hub, run: seq<Action>)
    requires WeakInv(h) && Legal(h, run)
    ensures WeakInv(After(h, run)) && Extends(h.db, After(h, run).db)
    ensures forall id :: Sum(EntriesFor(After(h, run).db.ledger, id)) == 0
    ensures h.db.ledger <= After(h, run).db.ledger && h.db.outbox <= After(h, run).db.outbox
    ensures forall id :: id in h.db.settlements ==>
              && id in After(h, run).db.settlements
              && var s, t := h.db.settlements[id], After(h, run).db.settlements[id];
                 && t.payer == s.payer && t.payee == s.payee && t.accountRef == s.accountRef && t.amount == s.amount
                 && (s.status != PENDING ==> t == s)
    decreases |run|
  {
    if run != [] {
      StepKeepsWeakInv(h, run[0]);
      AnyRunIsZeroSumAndFinal(Do(h, run[0]), run[1..]);
    }
  }

  /** Every commit of the run finds its settlement still PENDING. */
  predicate CommitsOnPending(h: Hub, run: seq<Action>)
    requires Legal(h, run)
    decreases |run|
  {
    run == [] ||
    ((run[0].Commit? ==> h.db.settlements[run[0].reply.id].status == PENDING)
     && CommitsOnPending(Do(h, run[0]), run[1..]))
  }

  ghost predicate ExtraOutcome(db: HubDb) {
    exists id :: |RowsFor(db.outbox, id)| > 2
  }

  lemma {:induction false} RowsOnlyGrow<E>(rows: seq<Row<E>>, more: seq<Row<E>>, id: Uuid)
    requires rows <= more
    ensures |RowsFor(rows, id)| <= |RowsFor(more, id)|
  {
    if |rows| < |more| {
      RowsOnlyGrow(rows, more[..|more| - 1], id);
    } else {
      assert rows == more;
    }
  }

  lemma ExtraOutcomeBreaksEvents(db: HubDb)
    requires ExtraOutcome(db)
    ensures !EventsOk(db)
  {
    var id :| |RowsFor(db.outbox, id)| > 2;
    if id in db.settlements {
      assert !EventsDue(RowsFor(db.outbox, id), id, db.settlements[id]);
    }
  }

  lemma ExtraOutcomeIsFinal(h: Hub, run: seq<Action>)
    requires WeakInv(h) && Legal(h, run) && ExtraOutcome(h.db)
    ensures !EventsOk(After(h, run).db)
  {
    var later := After(h, run).db;
    AnyRunIsZeroSumAndFinal(h, run);
    var id :| |RowsFor(h.db.outbox, id)| > 2;
    RowsOnlyGrow(h.db.outbox, later.outbox, id);
    ExtraOutcomeBreaksEvents(later);
  }

  lemma LateCommitAddsOutcome(h: Hub, r: Reply)
    requires HubOk(h.db) && WeakInv(h) && Enabled(h, Commit(r)) && h.db.settlements[r.id].status != PENDING
    ensures ExtraOutcome(Do(h, Commit(r)).db)
  {
    var s := h.db.settlements[r.id];
    assert EventsDue(RowsFor(h.db.outbox, r.id), r.id, s);
    RowsPush(h.db.outbox, Row(r.id, Outcome(s.payer, r.answer, r.reason)), r.id);
    assert |RowsFor(Do(h, Commit(r)).db.outbox, r.id)| > 2;
  }

  /** Without the serial assumption a run keeps reserves and events exact if and only if no
      reply commits against a settlement that was settled after the handler read it. */
  lemma {:induction false} RunKeepsHubOkIff(h: Hub, run: seq<Action>)
    requires HubOk(h.db) && WeakInv(h) && Legal(h, run)
    ensures HubOk(After(h, run).db) <==> CommitsOnPending(h, run)
    decreases |run|
  {
    if run != [] {
      var a, h' := run[0], Do(h, run[0]);
      StepKeepsWeakInv(h, a);
      if a.Commit? && h.db.settlements[a.reply.id].status != PENDING {
        LateCommitAddsOutcome(h, a.reply);
        ExtraOutcomeIsFinal(h', run[1..]);
      } else {
        StepKeepsHubOk(h, a);
        RunKeepsHubOkIff(h', run[1..]);
      }
    }
  }

  /** Handlers overlap freely: any reply for a PENDING settlement can be read whoever is handling
      it already, commit as long as it is open, or be cut off; any request can be delivered. A
      step is serial unless it reads a reply for a settlement somebody is handling. */
  lemma HandlersOverlapFreely(h: Hub, r: Reply, request: Request, known: bool, a: Action)
    ensures !Serial(h, a) <==> a.Read? && exists q :: q in h.handlers && q.id == a.reply.id
    ensures r.id in h.db.settlements && h.db.settlements[r.id].status == PENDING ==>
              Enabled(h, Read(r)) && Do(h, Read(r)) == Hub(h.db, h.handlers + multiset{r})
    ensures r in h.handlers ==>
              Enabled(h, Crash(r)) && Do(h, Crash(r)) == Hub(h.db, h.handlers - multiset{r})
    ensures r in h.handlers && r.id in h.db.settlements ==>
              Enabled(h, Commit(r)) && Do(h, Commit(r)).handlers == h.handlers - multiset{r}
    ensures !known || request.payee in h.db.banks ==>
              Enabled(h, Deliver(request, known)) && Do(h, Deliver(request, known)).handlers == h.handlers
  {
  }

  // ----- what the outcome rows say ----------------------------------------------------------

  predicate OutcomeTrue(db: HubDb, row: nat)
    requires row < |db.outbox|
  {
    var id, payload := db.outbox[row].aggregateId, db.outbox[row].payload;
    payload.Outcome? ==>
      && id in db.settlements
      && db.settlements[id].status == payload.verdict && db.settlements[id].payer == payload.payerBank
  }

  /** Every outcome ever written names the status and the payer bank of its settlement. */
  ghost predicate OutcomesTrue(db: HubDb) {
    forall row: nat :: row < |db.outbox| ==> OutcomeTrue(db, row)
  }

  /** A reply that finds its settlement settled repeats the answer recorded there. Overlapping
      copies of one reply meet this; it is weaker than `Serial`. */
  predicate Consistent(h: Hub, a: Action)
    requires Enabled(h, a)
  {
    a.Commit? ==>
      var status := h.db.settlements[a.reply.id].status;
      status == PENDING || status == a.reply.answer
  }

  predicate ConsistentRun(h: Hub, run: seq<Action>)
    requires Legal(h, run)
    decreases |run|
  {
    run == [] || (Consistent(h, run[0]) && ConsistentRun(Do(h, run[0]), run[1..]))
  }

  lemma StepKeepsOutcomesTrue(h: Hub, a: Action)
    requires OutcomesTrue(h.db) && Live(h) && Enabled(h, a) && Consistent(h, a)
    ensures OutcomesTrue(Do(h, a).db)
  {
    var db' := Do(h, a).db;
    StepExtends(h, a);
    forall row: nat | row < |db'.outbox| ensures OutcomeTrue(db', row) {
      if row < |h.db.outbox| {
        assert OutcomeTrue(h.db, row);
        assert db'.outbox[row] == h.db.outbox[row];
      }
    }
  }

  lemma InconsistentCommitIsFalse(h: Hub, r: Reply)
    requires Live(h) && Enabled(h, Commit(r)) && !Consistent(h, Commit(r))
    ensures var db' := Do(h, Commit(r)).db;
            |db'.outbox| == |h.db.outbox| + 1 && db'.outbox[|h.db.outbox|].aggregateId == r.id
            && db'.settlements[r.id] == h.db.settlements[r.id] && !OutcomeTrue(db', |h.db.outbox|)
  {
  }

  lemma {:induction false} FalseOutcomeIsFinal(h: Hub, run: seq<Action>, row: nat)
    requires WeakInv(h) && Legal(h, run) && row < |h.db.outbox| && !OutcomeTrue(h.db, row)
    requires h.db.outbox[row].aggregateId in h.db.settlements
    requires h.db.settlements[h.db.outbox[row].aggregateId].status != PENDING
    ensures !OutcomesTrue(After(h, run).db)
  {
    AnyRunIsZeroSumAndFinal(h, run);
    var later := After(h, run).db;
    assert later.outbox[row] == h.db.outbox[row];
    assert !OutcomeTrue(later, row);
  }

  /** Every outcome the Hub can ever send is true if and only if no reply commits against a
      settlement that was settled with the other answer. */
  lemma {:induction false} OutcomesAreTrueIff(h: Hub, run: seq<Action>)
    requires WeakInv(h) && OutcomesTrue(h.db) && Legal(h, run)
    ensures OutcomesTrue(After(h, run).db) <==> ConsistentRun(h, run)
    decreases |run|
  {
    if run != [] {
      var h' := Do(h, run[0]);
      StepKeepsWeakInv(h, run[0]);
      if Consistent(h, run[0]) {
        StepKeepsOutcomesTrue(h, run[0]);
        OutcomesAreTrueIff(h', run[1..]);
      } else {
        InconsistentCommitIsFalse(h, run[0].reply);
        FalseOutcomeIsFinal(h', run[1..], |h.db.outbox|);
      }
    }
  }

  // ----- the shortest runs to a settlement and to its failure ---------------------------------

  lemma ConsistentCons(h: Hub, a: Action, rest: seq<Action>)
    requires Enabled(h, a) && Consistent(h, a) && Legal(Do(h, a), rest) && ConsistentRun(Do(h, a), rest)
    ensures Legal(h, [a] + rest) && ConsistentRun(h, [a] + rest)
    ensures After(h, [a] + rest) == After(Do(h, a), rest)
  {
    assert ([a] + rest)[1..] == rest;
  }

  function Acceptance(r: Request): seq<Action> {
    [Register(r.payer), Register(r.payee), Deliver(r, true)]
  }

  lemma AcceptanceRuns(h: Hub, r: Request)
    requires r.id !in h.db.settlements && RowChecks(r) && IsSafeInteger(r.amount)
    ensures Legal(h, Acceptance(r)) && ConsistentRun(h, Acceptance(r))
    ensures var later := After(h, Acceptance(r));
            && later.handlers == h.handlers
            && later.db == Requested(h.db.(banks := h.db.banks + {r.payer} + {r.payee}), r, true)
            && r.id in later.db.settlements && later.db.settlements[r.id] == RowFor(r, true)
  {
    var h1 := Do(h, Register(r.payer));
    var h2 := Do(h1, Register(r.payee));
    assert Acceptable(h2.db, r, true);
    ConsistentCons(h2, Deliver(r, true), []);
    ConsistentCons(h1, Register(r.payee), [Deliver(r, true)]);
    ConsistentCons(h, Register(r.payer), [Register(r.payee), Deliver(r, true)]);
  }

  function Settling(reply: Reply): seq<Action> {
    [Read(reply), Commit(reply)]
  }

  lemma SettlingRuns(h: Hub, reply: Reply)
    requires reply.id in h.db.settlements && h.db.settlements[reply.id].status == PENDING
    ensures Legal(h, Settling(reply)) && ConsistentRun(h, Settling(reply))
    ensures var later := After(h, Settling(reply));
            later.handlers == h.handlers && later.db == Replied(h.db, reply)
  {
    var read := Do(h, Read(reply));
    ConsistentCons(read, Commit(reply), []);
    ConsistentCons(h, Read(reply), [Commit(reply)]);
    assert (h.handlers + multiset{reply}) - multiset{reply} == h.handlers;
  }

  function Overlap(id: Uuid): seq<Action> {
    var confirm, reverse := Reply(id, CONFIRMED, None), Reply(id, REVERSED, None);
    [Read(confirm), Read(reverse), Commit(confirm), Commit(reverse)]
  }

  /** Two handlers that read a PENDING row both commit, one after the other. */
  lemma OverlapCommits(h: Hub, first: Reply, second: Reply)
    requires first != second && first.id == second.id
    requires h.handlers[first] > 0 && h.handlers[second] > 0
    requires first.id in h.db.settlements
    ensures Legal(h, [Commit(first), Commit(second)])
    ensures After(h, [Commit(first), Commit(second)]).db == Replied(Replied(h.db, first), second)
  {
    var h1 := Do(h, Commit(first));
    assert Enabled(h1, Commit(second));
    LegalCons(h1, Commit(second), []);
    LegalCons(h, Commit(first), [Commit(second)]);
  }

  lemma OverlapRuns(h: Hub, id: Uuid)
    requires id in h.db.settlements && h.db.settlements[id].status == PENDING
    ensures Legal(h, Overlap(id))
    ensures After(h, Overlap(id)).db == Replied(Replied(h.db, Reply(id, CONFIRMED, None)), Reply(id, REVERSED, None))
  {
    var confirm, reverse := Reply(id, CONFIRMED, None), Reply(id, REVERSED, None);
    var h1 := Do(h, Read(confirm));
    var h2 := Do(h1, Read(reverse));
    OverlapCommits(h2, confirm, reverse);
    LegalCons(h1, Read(reverse), [Commit(confirm), Commit(reverse)]);
    LegalCons(h, Read(confirm), [Read(reverse), Commit(confirm), Commit(reverse)]);
  }

  /** The shortest failure, from any state with a PENDING settlement: two handlers overlap, the
      CONFIRMED one commits first, and the REVERSED one still takes the payee's money back. */
  lemma OverlappingRepliesReverseAConfirmedSettlement(h: Hub, id: Uuid)
    requires HubOk(h.db) && id in h.db.settlements && h.db.settlements[id].status == PENDING
    ensures Legal(h, Overlap(id))
    ensures var s, later := h.db.settlements[id], After(h, Overlap(id)).db;
            && id in later.settlements && later.settlements[id].status == CONFIRMED
            && BalanceOf(later.ledger, s.payee) == NetReserve(later.settlements, s.payee) - s.amount
  {
    OverlapRuns(h, id);
    var confirm, reverse := Reply(id, CONFIRMED, None), Reply(id, REVERSED, None);
    var payee := h.db.settlements[id].payee;
    RepliedMovesReserves(h.db, confirm, payee);
    RepliedMovesReserves(Replied(h.db, confirm), reverse, payee);
  }

  // ----- delivery insensitivity -------------------------------------------------------------

  function RequestId(r: Request): Uuid {
    r.id
  }

  /** The requests a Hub with this directory does not throw on. */
  function ValidIn(banks: set<BankId>): Request -> bool {
    (r: Request) => RowChecks(r) && r.payer in banks && (r.payee in banks ==> IsSafeInteger(r.amount))
  }

  function DeliverAll(db: HubDb, requests: seq<Request>): HubDb
    decreases |requests|
  {
    if requests == [] then db
    else DeliverAll(Requested(db, requests[0], requests[0].payee in db.banks), requests[1..])
  }

  /** Whatever is redelivered, invalid or late, the tables are those of the first valid
      delivery of each id. */
  lemma {:induction false} OnlyFirstValidRequestsMatter(db: HubDb, requests: seq<Request>)
    ensures DeliverAll(db, requests) ==
            DeliverAll(db, FirstValid(RequestId, ValidIn(db.banks), db.settlements.Keys, requests))
    decreases |requests|
  {
    if requests != [] {
      var r := requests[0];
      var db' := Requested(db, r, r.payee in db.banks);
      OnlyFirstValidRequestsMatter(db', requests[1..]);
      if ValidIn(db.banks)(r) && r.id !in db.settlements {
        var rest := FirstValid(RequestId, ValidIn(db.banks), db.settlements.Keys + {r.id}, requests[1..]);
        assert db'.settlements.Keys == db.settlements.Keys + {r.id};
        assert ([r] + rest)[0] == r && ([r] + rest)[1..] == rest;
      } else {
        assert db' == db;
      }
    }
  }

  /** The settlements a batch of requests with different ids stands for. */
  function RowsOf(banks: set<BankId>, requests: seq<Request>): map<Uuid, Settlement>
    decreases |requests|
  {
    if requests == [] then map[]
    else RowsOf(banks, requests[1..])[requests[0].id := RowFor(requests[0], requests[0].payee in banks)]
  }

  lemma {:induction false} RowsOfHas(banks: set<BankId>, requests: seq<Request>, seen: set<Uuid>)
    requires FreshIds(RequestId, seen, requests)
    ensures RowsOf(banks, requests).Keys !! seen
    ensures forall id :: id in RowsOf(banks, requests) ==> exists r :: r in requests && r.id == id
    ensures forall r :: r in requests ==> r.id in RowsOf(banks, requests)
    ensures forall r :: r in requests ==> RowsOf(banks, requests)[r.id] == RowFor(r, r.payee in banks)
    decreases |requests|
  {
    if requests != [] {
      var r, rest := requests[0], requests[1..];
      RowsOfHas(banks, rest, seen + {r.id});
      assert forall x :: x in requests <==> x == r || x in rest;
    }
  }

  lemma RequestedPuts(db: HubDb, r: Request)
    requires ValidIn(db.banks)(r) && r.id !in db.settlements
    ensures var db' := Requested(db, r, r.payee in db.banks);
            && db'.banks == db.banks
            && db'.settlements == db.settlements[r.id := RowFor(r, r.payee in db.banks)]
            && db'.settlements.Keys == db.settlements.Keys + {r.id}
  {
  }

  lemma PutThenAdd<K, V>(m: map<K, V>, k: K, v: V, n: map<K, V>)
    requires k !in n
    ensures m[k := v] + n == m + n[k := v]
  {
  }

  lemma {:induction false} DeliveredRows(db: HubDb, requests: seq<Request>)
    requires FreshIds(RequestId, db.settlements.Keys, requests)
    requires forall i :: 0 <= i < |requests| ==> ValidIn(db.banks)(requests[i])
    ensures DeliverAll(db, requests).settlements == db.settlements + RowsOf(db.banks, requests)
    decreases |requests|
  {
    if requests != [] {
      var r, rest := requests[0], requests[1..];
      RequestedPuts(db, r);
      var db' := Requested(db, r, r.payee in db.banks);
      DeliveredRows(db', rest);
      RowsOfHas(db.banks, rest, db'.settlements.Keys);
      PutThenAdd(db.settlements, r.id, RowFor(r, r.payee in db.banks), RowsOf(db.banks, rest));
    }
  }

  lemma {:induction false} DeliverAllKeepsHubOk(db: HubDb, requests: seq<Request>)
    requires HubOk(db)
    ensures HubOk(DeliverAll(db, requests))
    decreases |requests|
  {
    if requests != [] {
      var known := requests[0].payee in db.banks;
      RequestedKeepsHubOk(db, requests[0], known);
      DeliverAllKeepsHubOk(Requested(db, requests[0], known), requests[1..]);
    }
  }

  lemma OrderOfRequestsKeepsRows(banks: set<BankId>, requests: seq<Request>, reordered: seq<Request>, seen: set<Uuid>)
    requires multiset(requests) == multiset(reordered)
    requires FreshIds(RequestId, seen, requests) && FreshIds(RequestId, seen, reordered)
    ensures RowsOf(banks, requests) == RowsOf(banks, reordered)
  {
    forall r ensures r in requests <==> r in reordered {
      assert r in requests <==> r in multiset(requests);
      assert r in reordered <==> r in multiset(reordered);
    }
    RowsOfHas(banks, requests, seen);
    RowsOfHas(banks, reordered, seen);
    var one, other := RowsOf(banks, requests), RowsOf(banks, reordered);
    forall id | id in one ensures id in other && one[id] == other[id] {
      var r :| r in requests && r.id == id;
    }
    assert one.Keys == other.Keys;
  }

  /** Together: whatever is delivered, redelivered, invalid or out of order, two delivery
      sequences with the same first valid requests give the same settlements and reserves. */
  lemma DeliveryIsInsensitive(db: HubDb, one: seq<Request>, other: seq<Request>)
    requires HubOk(db)
    requires multiset(FirstValid(RequestId, ValidIn(db.banks), db.settlements.Keys, one)) ==
             multiset(FirstValid(RequestId, ValidIn(db.banks), db.settlements.Keys, other))
    ensures DeliverAll(db, one).settlements == DeliverAll(db, other).settlements
    ensures forall bank :: BalanceOf(DeliverAll(db, one).ledger, bank) == BalanceOf(DeliverAll(db, other).ledger, bank)
  {
    var valid, seen := ValidIn(db.banks), db.settlements.Keys;
    OnlyFirstValidRequestsMatter(db, one);
    OnlyFirstValidRequestsMatter(db, other);
    FirstValidIsFresh(RequestId, valid, seen, one);
    FirstValidIsFresh(RequestId, valid, seen, other);
    OrderOfRequestsDoesNotMatter(
      db, FirstValid(RequestId, valid, seen, one), FirstValid(RequestId, valid, seen, other));
  }

  /** The order in which valid requests of different ids arrive decides neither a status nor a
      reserve. */
  lemma OrderOfRequestsDoesNotMatter(db: HubDb, requests: seq<Request>, reordered: seq<Request>)
    requires HubOk(db) && multiset(requests) == multiset(reordered)
    requires FreshIds(RequestId, db.settlements.Keys, requests)
    requires FreshIds(RequestId, db.settlements.Keys, reordered)
    requires forall r :: r in requests ==> ValidIn(db.banks)(r)
    ensures DeliverAll(db, requests).settlements == DeliverAll(db, reordered).settlements
    ensures forall bank :: BalanceOf(DeliverAll(db, requests).ledger, bank) ==
                           BalanceOf(DeliverAll(db, reordered).ledger, bank)
  {
    DeliveredRows(db, requests);
    forall i | 0 <= i < |reordered| ensures ValidIn(db.banks)(reordered[i]) {
      assert reordered[i] in multiset(reordered);
    }
    DeliveredRows(db, reordered);
    OrderOfRequestsKeepsRows(db.banks, requests, reordered, db.settlements.Keys);
    DeliverAllKeepsHubOk(db, requests);
    DeliverAllKeepsHubOk(db, reordered);
    assert ReservesOk(DeliverAll(db, requests)) && ReservesOk(DeliverAll(db, reordered));
  }
}
