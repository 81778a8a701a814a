/**
 The interbank saga: Bank A, the Hub, and a transport that loses, duplicates and reorders
 messages, with a relay on each side and Bank A's reconciliation as the fallback.
 */
module Saga {
  import opened Prelude
  import opened Outbox
  import BankAModel
  import HubModel
  import A = BankARuns
  import H = HubRuns

  /** `requests` and `outcomes` hold every copy not yet acknowledged, including the one a
      handler is working on; a dead-lettered copy is dropped and not replayed. */
  datatype System = System(
    bank: A.Bank,
    hub: H.Hub,
    requests: multiset<HubModel.Request>,
    outcomes: multiset<A.Outcome>)

  datatype Action =
    | AtBank(bankAction: A.Action)
    | AtHub(hubAction: H.Action)
    | SendRequest(row: nat)
    | SendOutcome(row: nat)
    | ForeignRequest(request: HubModel.Request)
    | DuplicateRequest(request: HubModel.Request)
    | DropRequest(request: HubModel.Request)
    | DuplicateOutcome(outcome: A.Outcome)
    | DropOutcome(outcome: A.Outcome)
    | ReconcileSettled(id: Uuid)
    | ReconcileAbsent(id: Uuid)

  predicate BankEnabled(s: System, a: A.Action) {
    && A.Enabled(s.bank, a)
    && (a.Read? ==> a.outcome in s.outcomes)
    // a random UUID is new to the Hub and to the transport as well
    && (a.Interbank? ==> a.id !in s.hub.db.settlements && forall r :: r in s.requests ==> r.id != a.id)
  }

  predicate HubEnabled(s: System, a: H.Action) {
    H.Enabled(s.hub, a) && (a.Deliver? ==> a.request in s.requests)
  }

  /** The sweep acts on a 404 whenever the Hub has no record, whatever is still on its way. */
  predicate Enabled(s: System, a: Action) {
    match a
    case AtBank(b) => BankEnabled(s, b)
    case AtHub(h) => HubEnabled(s, h)
    case SendRequest(row) => row < |s.bank.db.outbox| && row !in s.bank.db.published
    case SendOutcome(row) =>
      && row < |s.hub.db.outbox| && row !in s.hub.db.published
      && var payload := s.hub.db.outbox[row].payload;
         payload.Outcome? && payload.payerBank == BankAModel.BANK_ID
    case ForeignRequest(r) => r.payer != BankAModel.BANK_ID && r.id !in s.bank.db.interbank
    case DuplicateRequest(r) => r in s.requests
    case DropRequest(r) => r in s.requests
    case DuplicateOutcome(o) => o in s.outcomes
    case DropOutcome(o) => o in s.outcomes
    case ReconcileSettled(id) =>
      && id in s.bank.db.interbank && id in s.hub.db.settlements
      && s.hub.db.settlements[id].status != HubModel.PENDING
    case ReconcileAbsent(id) => id in s.bank.db.interbank && id !in s.hub.db.settlements
  }

  function Do(s: System, a: Action): System
    requires Enabled(s, a)
  {
    match a
    case AtBank(b) => s.(bank := A.Do(s.bank, b))
    case AtHub(h) => s.(hub := H.Do(s.hub, h))
    case SendRequest(row) => s.(requests := s.requests + multiset{s.bank.db.outbox[row].payload})
    case SendOutcome(row) => s.(outcomes := s.outcomes + multiset{Sent(s, row)})
    case ForeignRequest(r) => s.(requests := s.requests + multiset{r})
    case DuplicateRequest(r) => s.(requests := s.requests + multiset{r})
    case DropRequest(r) => s.(requests := s.requests - multiset{r})
    case DuplicateOutcome(o) => s.(outcomes := s.outcomes + multiset{o})
    case DropOutcome(o) => s.(outcomes := s.outcomes - multiset{o})
    case ReconcileSettled(id) =>
      s.(outcomes := s.outcomes + multiset{A.Outcome(id, s.hub.db.settlements[id].status)})
    case ReconcileAbsent(id) => s.(outcomes := s.outcomes + multiset{A.Outcome(id, HubModel.REJECTED)})
  }

  /** The message of an outcome row. */
  function Sent(s: System, row: nat): A.Outcome
    requires row < |s.hub.db.outbox| && s.hub.db.outbox[row].payload.Outcome?
  {
    A.Outcome(s.hub.db.outbox[row].aggregateId, s.hub.db.outbox[row].payload.verdict)
  }

  predicate Legal(s: System, run: seq<Action>)
    decreases |run|
  {
    run == [] || (Enabled(s, run[0]) && Legal(Do(s, run[0]), run[1..]))
  }

  function After(s: System, run: seq<Action>): System
    requires Legal(s, run)
    decreases |run|
  {
    if run == [] then s else After(Do(s, run[0]), run[1..])
  }

  const START := System(A.START, H.START, multiset{}, multiset{})

  /** The transport does what it likes: it duplicates and drops any message, and other banks send
      any request of their own. The sweep may act on whatever the Hub answers. */
  lemma TransportIsFree(s: System, r: HubModel.Request, o: A.Outcome, id: Uuid)
    ensures r in s.requests ==>
              && Enabled(s, DuplicateRequest(r)) && Do(s, DuplicateRequest(r)).requests == s.requests + multiset{r}
              && Enabled(s, DropRequest(r)) && Do(s, DropRequest(r)).requests == s.requests - multiset{r}
    ensures o in s.outcomes ==>
              && Enabled(s, DuplicateOutcome(o)) && Do(s, DuplicateOutcome(o)).outcomes == s.outcomes + multiset{o}
              && Enabled(s, DropOutcome(o)) && Do(s, DropOutcome(o)).outcomes == s.outcomes - multiset{o}
    ensures r.payer != "bank-a" && r.id !in s.bank.db.interbank ==>
              Enabled(s, ForeignRequest(r)) && Do(s, ForeignRequest(r)).requests == s.requests + multiset{r}
    ensures id in s.bank.db.interbank && id !in s.hub.db.settlements ==>
              && Enabled(s, ReconcileAbsent(id))
              && Do(s, ReconcileAbsent(id)).outcomes == s.outcomes + multiset{A.Outcome(id, HubModel.REJECTED)}
    ensures id in s.bank.db.interbank && id in s.hub.db.settlements
            && s.hub.db.settlements[id].status != HubModel.PENDING ==>
              && Enabled(s, ReconcileSettled(id))
              && Do(s, ReconcileSettled(id)).outcomes ==
                 s.outcomes + multiset{A.Outcome(id, s.hub.db.settlements[id].status)}
  {
  }

  // ----- the assumptions --------------------------------------------------------------------

  predicate SagaRow(s: System, id: Uuid) {
    id in s.bank.db.interbank && id in s.bank.db.transfers
  }

  /** What Bank A asked the Hub for. */
  function Asked(s: System, id: Uuid): HubModel.Request
    requires SagaRow(s, id)
  {
    var b := s.bank.db.interbank[id];
    BankAModel.RequestFor(id, b.payeeBank, b.payeeRef, s.bank.db.transfers[id].amount)
  }

  /** No settlement exists and every copy of its request is gone: all its
      outbox rows are published and none is left in the transport. */
  predicate Gone(s: System, id: Uuid) {
    && id !in s.hub.db.settlements
    && (forall i :: 0 <= i < |s.bank.db.outbox| && s.bank.db.outbox[i].aggregateId == id ==> i in s.bank.db.published)
    && (forall r :: r in s.requests ==> r.id != id)
  }

  /** The Hub has no record, and none can appear: the request is gone, or one the Hub would throw
      on. The sweep counts on `STALE_AFTER_MS` for its 404 branch to run only then. */
  predicate StaysAbsent(s: System, id: Uuid) {
    Gone(s, id) || (id !in s.hub.db.settlements && SagaRow(s, id) && !HubModel.RowChecks(Asked(s, id)))
  }

  /** A 404 is acted on only when it stays one, and a reply that finds its settlement settled
      repeats the answer recorded there. */
  predicate Careful(s: System, a: Action)
    requires Enabled(s, a)
  {
    && (a.ReconcileAbsent? ==> StaysAbsent(s, a.id))
    && (a.AtHub? ==> H.Consistent(s.hub, a.hubAction))
  }

  /** All a careful run rules out: acting on a 404 while the request is still in the outbox or in
      the transport and the Hub could accept it, and committing a reply to a settlement that was
      settled with the other answer. */
  lemma CarefulMeans(s: System, a: Action)
    requires TermsInv(s) && Enabled(s, a)
    ensures !Careful(s, a) <==>
            || (&& a.ReconcileAbsent?
                && a.id in s.bank.db.transfers
                && (|| (exists i :: 0 <= i < |s.bank.db.outbox| && s.bank.db.outbox[i].aggregateId == a.id
                                    && i !in s.bank.db.published)
                    || (exists r :: r in s.requests && r.id == a.id))
                && var b := s.bank.db.interbank[a.id];
                   b.payeeBank != "bank-a" && 1 <= |b.payeeBank| <= 64)
            || (&& a.AtHub? && a.hubAction.Commit?
                && var status := s.hub.db.settlements[a.hubAction.reply.id].status;
                   status != HubModel.PENDING && status != a.hubAction.reply.answer)
  {
    if a.ReconcileAbsent? {
      assert BankAModel.RowOk(s.bank.db, a.id);
    }
  }

  predicate CarefulRun(s: System, run: seq<Action>)
    requires Legal(s, run)
    decreases |run|
  {
    run == [] || (Careful(s, run[0]) && CarefulRun(Do(s, run[0]), run[1..]))
  }

  /** Every step of Bank A satisfies the predicate. */
  predicate AllAtBank(run: seq<Action>, p: A.Action -> bool) {
    forall i :: 0 <= i < |run| && run[i].AtBank? ==> p(run[i].bankAction)
  }

  /** Apart from the saga, no transfer names the suspense account. */
  predicate SuspenseLeftAlone(run: seq<Action>) {
    AllAtBank(run, A.LeavesSuspenseAlone)
  }

  /** No client sends a text that spells a compensation key. */
  predicate KeysSpared(run: seq<Action>) {
    AllAtBank(run, A.SparesKeys)
  }

  /** What they ask of a run's callers, in plain terms. */
  lemma AssumptionsMean(run: seq<Action>)
    ensures KeysSpared(run) <==>
            forall i :: 0 <= i < |run| && run[i].AtBank?
                        && (run[i].bankAction.Local? || run[i].bankAction.Interbank?) ==>
              !run[i].bankAction.transfer.key.CompensationKey?
    ensures SuspenseLeftAlone(run) <==>
            forall i :: 0 <= i < |run| && run[i].AtBank? ==>
              var b := run[i].bankAction;
              && (b.Local? ==> b.transfer.payer != BankAModel.SUSPENSE && b.transfer.payee != BankAModel.SUSPENSE)
              && (b.DevSeed? ==> b.account != BankAModel.SUSPENSE)
  {
  }

  // ----- each party's part of a run -----------------------------------------------------------

  function BankPart(run: seq<Action>): seq<A.Action> {
    if run == [] then [] else (if run[0].AtBank? then [run[0].bankAction] else []) + BankPart(run[1..])
  }

  function HubPart(run: seq<Action>): seq<H.Action> {
    if run == [] then [] else (if run[0].AtHub? then [run[0].hubAction] else []) + HubPart(run[1..])
  }

  lemma {:induction false} BankPartIsRun(s: System, run: seq<Action>)
    requires Legal(s, run)
    ensures A.Legal(s.bank, BankPart(run)) && A.After(s.bank, BankPart(run)) == After(s, run).bank
    decreases |run|
  {
    if run != [] {
      BankPartIsRun(Do(s, run[0]), run[1..]);
      if run[0].AtBank? {
        A.LegalCons(s.bank, run[0].bankAction, BankPart(run[1..]));
      } else {
        assert BankPart(run) == BankPart(run[1..]);
      }
    }
  }

  lemma {:induction false} HubPartIsRun(s: System, run: seq<Action>)
    requires Legal(s, run)
    ensures H.Legal(s.hub, HubPart(run)) && H.After(s.hub, HubPart(run)) == After(s, run).hub
    decreases |run|
  {
    if run != [] {
      HubPartIsRun(Do(s, run[0]), run[1..]);
      if run[0].AtHub? {
        H.LegalCons(s.hub, run[0].hubAction, HubPart(run[1..]));
      } else {
        assert HubPart(run) == HubPart(run[1..]);
      }
    }
  }

  lemma {:induction false} PartSatisfies(run: seq<Action>, p: A.Action -> bool)
    requires AllAtBank(run, p)
    ensures forall i :: 0 <= i < |BankPart(run)| ==> p(BankPart(run)[i])
    decreases |run|
  {
    if run != [] {
      assert forall i :: 0 <= i < |run[1..]| ==> run[1..][i] == run[i + 1];
      PartSatisfies(run[1..], p);
    }
  }

  // ----- requests and settlements, whatever happens -------------------------------------------

  predicate RequestOk(s: System, r: HubModel.Request) {
    if r.payer == BankAModel.BANK_ID then SagaRow(s, r.id) && r == Asked(s, r.id)
    else r.id !in s.bank.db.interbank
  }

  function RequestOf(id: Uuid, x: HubModel.Settlement): HubModel.Request {
    HubModel.Request(id, x.payer, x.payee, x.accountRef, x.amount)
  }

  /** The Hub's row is the one Bank A asked for. */
  predicate SettlementOk(s: System, id: Uuid)
    requires id in s.hub.db.settlements
  {
    RequestOk(s, RequestOf(id, s.hub.db.settlements[id]))
  }

  /** What holds in every reachable state, assumptions or not: each party's own books, and
      requests and settlements with the terms Bank A recorded. */
  ghost predicate TermsInv(s: System) {
    && A.RowsInv(s.bank)
    && H.Live(s.hub)
    && (forall r :: r in s.requests ==> RequestOk(s, r))
    && (forall id :: id in s.hub.db.settlements ==> SettlementOk(s, id))
  }

  lemma SagaRows(s: System)
    requires A.RowsInv(s.bank)
    ensures forall id :: id in s.bank.db.interbank ==> SagaRow(s, id)
  {
    forall id | id in s.bank.db.interbank ensures SagaRow(s, id) {
      assert BankAModel.RowOk(s.bank.db, id);
    }
  }

  /** Every outbox row of Bank A carries its own request. */
  lemma OutboxRowIsAsked(s: System, row: nat)
    requires A.RowsInv(s.bank) && row < |s.bank.db.outbox|
    ensures var id := s.bank.db.outbox[row].aggregateId;
            SagaRow(s, id) && s.bank.db.outbox[row].payload == Asked(s, id)
  {
    var rows := s.bank.db.outbox;
    RowIsListed(rows, row);
    assert BankAModel.RowOk(s.bank.db, rows[row].aggregateId);
  }

  /** Both databases only move forward. */
  ghost predicate Grows(s: System, t: System) {
    A.Extends(s.bank.db, t.bank.db) && H.Extends(s.hub.db, t.hub.db)
  }

  lemma StepGrows(s: System, a: Action)
    requires TermsInv(s) && Enabled(s, a)
    ensures Grows(s, Do(s, a))
  {
    match a
    case AtBank(b) => A.StepKeepsRowsInv(s.bank, b);
    case AtHub(h) => H.StepExtends(s.hub, h);
    case _ =>
  }

  lemma GrowingKeepsAsked(s: System, t: System, id: Uuid)
    requires Grows(s, t) && SagaRow(s, id)
    ensures SagaRow(t, id) && Asked(t, id) == Asked(s, id)
  {
  }

  /** A request stays what Bank A asked for, and a foreign one stays foreign. */
  lemma RequestStaysOk(s: System, a: Action, r: HubModel.Request)
    requires Enabled(s, a) && Grows(s, Do(s, a)) && RequestOk(s, r)
    requires r in s.requests || r.id in s.hub.db.settlements || !a.AtBank?
    ensures RequestOk(Do(s, a), r)
  {
    var t := Do(s, a);
    if r.payer == BankAModel.BANK_ID {
      GrowingKeepsAsked(s, t, r.id);
    } else if a.AtBank? {
      match a.bankAction
      case Interbank(_, _, _, _) =>
      case _ =>
    }
  }

  lemma StepKeepsRequestsOk(s: System, a: Action, r: HubModel.Request)
    requires TermsInv(s) && Enabled(s, a) && r in Do(s, a).requests
    ensures RequestOk(Do(s, a), r)
  {
    StepGrows(s, a);
    if a.SendRequest? {
      OutboxRowIsAsked(s, a.row);
    }
    assert RequestOk(s, r);
    RequestStaysOk(s, a, r);
  }

  /** A settlement keeps its terms, and a new one has those of a request in the transport. */
  lemma SettlementsComeFrom(s: System, a: Action, id: Uuid)
    requires Enabled(s, a) && H.Live(s.hub) && id in Do(s, a).hub.db.settlements
    ensures var r := RequestOf(id, Do(s, a).hub.db.settlements[id]);
            if id in s.hub.db.settlements then RequestOf(id, s.hub.db.settlements[id]) == r
            else r in s.requests && !a.AtBank? && HubModel.RowChecks(r)
  {
    if a.AtHub? {
      HubSettlementsComeFrom(s.hub, a.hubAction, id);
    }
  }

  lemma HubSettlementsComeFrom(hub: H.Hub, h: H.Action, id: Uuid)
    requires H.Enabled(hub, h) && H.Live(hub) && id in H.Do(hub, h).db.settlements
    ensures var r := RequestOf(id, H.Do(hub, h).db.settlements[id]);
            if id in hub.db.settlements then RequestOf(id, hub.db.settlements[id]) == r
            else h.Deliver? && r == h.request && HubModel.RowChecks(r)
  {
    H.StepExtends(hub, h);
  }

  lemma StepKeepsSettlementOk(s: System, a: Action, id: Uuid)
    requires TermsInv(s) && Enabled(s, a) && id in Do(s, a).hub.db.settlements
    ensures SettlementOk(Do(s, a), id)
  {
    StepGrows(s, a);
    SettlementsComeFrom(s, a, id);
    assert id in s.hub.db.settlements ==> SettlementOk(s, id);
    RequestStaysOk(s, a, RequestOf(id, Do(s, a).hub.db.settlements[id]));
  }

  lemma StepKeepsParties(s: System, a: Action)
    requires TermsInv(s) && Enabled(s, a)
    ensures A.RowsInv(Do(s, a).bank) && H.Live(Do(s, a).hub)
  {
    match a
    case AtBank(b) => A.StepKeepsRowsInv(s.bank, b);
    case AtHub(h) => H.StepExtends(s.hub, h);
    case _ =>
  }

  lemma StepKeepsTerms(s: System, a: Action)
    requires TermsInv(s) && Enabled(s, a)
    ensures TermsInv(Do(s, a))
  {
    var t := Do(s, a);
    StepKeepsParties(s, a);
    forall r | r in t.requests ensures RequestOk(t, r) { StepKeepsRequestsOk(s, a, r); }
    forall id | id in t.hub.db.settlements ensures SettlementOk(t, id) { StepKeepsSettlementOk(s, a, id); }
  }

  /** No assumption is needed for the two parties' books and for the terms they exchanged. */
  lemma {:induction false} AnyRunKeepsTerms(s: System, run: seq<Action>)
    requires TermsInv(s) && Legal(s, run)
    ensures TermsInv(After(s, run))
    decreases |run|
  {
    if run != [] {
      StepKeepsTerms(s, run[0]);
      AnyRunKeepsTerms(Do(s, run[0]), run[1..]);
    }
  }

  // ----- a record that cannot appear ----------------------------------------------------------

  /** Nothing can bring a gone settlement back: no copy of its request is left to deliver, to
      duplicate or to send. */
  lemma StepKeepsGone(s: System, a: Action, id: Uuid)
    requires TermsInv(s) && Enabled(s, a) && SagaRow(s, id) && Gone(s, id)
    ensures Gone(Do(s, a), id)
  {
    if a.SendRequest? {
      OutboxRowIsAsked(s, a.row);
    }
    match a
    case AtBank(b) => BankStepKeepsGone(s, b, id);
    case AtHub(h) => HubStepKeepsGone(s, h, id);
    case _ =>
  }

  lemma BankStepKeepsGone(s: System, b: A.Action, id: Uuid)
    requires BankEnabled(s, b) && SagaRow(s, id) && Gone(s, id)
    ensures Gone(Do(s, AtBank(b)), id)
  {
  }

  lemma HubStepKeepsGone(s: System, h: H.Action, id: Uuid)
    requires HubEnabled(s, h) && Gone(s, id)
    ensures Gone(Do(s, AtHub(h)), id)
  {
  }

  lemma NewSettlementWasAccepted(s: System, a: Action, id: Uuid)
    requires TermsInv(s) && Enabled(s, a) && SagaRow(s, id)
    requires id !in s.hub.db.settlements && id in Do(s, a).hub.db.settlements
    ensures HubModel.RowChecks(Asked(s, id))
  {
    SettlementsComeFrom(s, a, id);
    assert RequestOk(s, RequestOf(id, Do(s, a).hub.db.settlements[id]));
  }

  lemma StepStaysAbsent(s: System, a: Action, id: Uuid)
    requires TermsInv(s) && Enabled(s, a) && id in s.bank.db.interbank && StaysAbsent(s, id)
    ensures StaysAbsent(Do(s, a), id) && id in Do(s, a).bank.db.interbank
  {
    SagaRows(s);
    StepGrows(s, a);
    GrowingKeepsAsked(s, Do(s, a), id);
    if Gone(s, id) {
      StepKeepsGone(s, a, id);
    } else if id in Do(s, a).hub.db.settlements {
      NewSettlementWasAccepted(s, a, id);
    }
  }

  lemma {:induction false} RunStaysAbsent(s: System, run: seq<Action>, id: Uuid)
    requires TermsInv(s) && Legal(s, run) && id in s.bank.db.interbank && StaysAbsent(s, id)
    ensures id !in After(s, run).hub.db.settlements
    decreases |run|
  {
    if run != [] {
      StepKeepsTerms(s, run[0]);
      StepStaysAbsent(s, run[0], id);
      RunStaysAbsent(Do(s, run[0]), run[1..], id);
    }
  }

  // ----- the invariant under the assumptions --------------------------------------------------

  predicate VerdictHolds(s: System, id: Uuid, verdict: HubModel.Verdict) {
    || (id in s.hub.db.settlements && s.hub.db.settlements[id].status == verdict)
    || (verdict == HubModel.REJECTED && StaysAbsent(s, id))
  }

  predicate OutcomeOk(s: System, o: A.Outcome) {
    o.id in s.bank.db.interbank && VerdictHolds(s, o.id, o.verdict)
  }

  /** Bank A's status and the Hub's do not contradict each other. */
  predicate Agrees(s: System, id: Uuid)
    requires id in s.bank.db.interbank
  {
    match s.bank.db.interbank[id].status
    case DEBITED => true
    case CONFIRMED => VerdictHolds(s, id, HubModel.CONFIRMED)
    case COMPENSATED => VerdictHolds(s, id, HubModel.REVERSED) || VerdictHolds(s, id, HubModel.REJECTED)
  }

  ghost predicate Inv(s: System) {
    && TermsInv(s)
    && H.OutcomesTrue(s.hub.db)
    && (forall o :: o in s.outcomes ==> OutcomeOk(s, o))
    && (forall o :: o in s.bank.handlers ==> OutcomeOk(s, o))
    && (forall id :: id in s.bank.db.interbank ==> Agrees(s, id))
  }

  lemma StartInv()
    ensures Inv(START)
  {
    BankAModel.EmptyBankOk();
  }

  lemma OutcomeEventIsTrue(s: System, row: nat)
    requires Inv(s) && Enabled(s, SendOutcome(row))
    ensures OutcomeOk(s, Sent(s, row))
  {
    assert H.OutcomeTrue(s.hub.db, row);
    assert SettlementOk(s, s.hub.db.outbox[row].aggregateId);
  }

  lemma StepKeepsVerdict(s: System, a: Action, id: Uuid, verdict: HubModel.Verdict)
    requires TermsInv(s) && Enabled(s, a) && id in s.bank.db.interbank && VerdictHolds(s, id, verdict)
    ensures VerdictHolds(Do(s, a), id, verdict)
  {
    if id in s.hub.db.settlements && s.hub.db.settlements[id].status == verdict {
      StepGrows(s, a);
    } else {
      StepStaysAbsent(s, a, id);
    }
  }

  /** A handler never compensates a transfer that is confirmed. */
  lemma NoLateCompensation(s: System, a: A.Action)
    requires Inv(s) && A.Enabled(s.bank, a) && a.Compensate?
    ensures a.outcome.id in s.bank.db.interbank && s.bank.db.interbank[a.outcome.id].status != BankAModel.CONFIRMED
  {
    assert OutcomeOk(s, a.outcome);
    assert Agrees(s, a.outcome.id);
  }

  lemma OutcomesComeFrom(s: System, a: Action, o: A.Outcome)
    requires Enabled(s, a) && (o in Do(s, a).outcomes || o in Do(s, a).bank.handlers)
    ensures || o in s.outcomes || o in s.bank.handlers
            || (a.SendOutcome? && o == Sent(s, a.row))
            || (a.ReconcileSettled? && o == A.Outcome(a.id, s.hub.db.settlements[a.id].status))
            || (a.ReconcileAbsent? && o == A.Outcome(a.id, HubModel.REJECTED))
  {
  }

  lemma StepKeepsOutcomeOk(s: System, a: Action, o: A.Outcome)
    requires Inv(s) && Enabled(s, a) && Careful(s, a) && (o in Do(s, a).outcomes || o in Do(s, a).bank.handlers)
    ensures OutcomeOk(Do(s, a), o)
  {
    OutcomesComeFrom(s, a, o);
    if a.SendOutcome? {
      OutcomeEventIsTrue(s, a.row);
    }
    assert OutcomeOk(s, o);
    StepGrows(s, a);
    StepKeepsVerdict(s, a, o.id, o.verdict);
  }

  /** The only steps that write a status, and the outcome they act on. */
  lemma StatusChange(s: System, a: Action, id: Uuid)
    requires Enabled(s, a) && id in Do(s, a).bank.db.interbank && (id in s.bank.db.interbank ==> SagaRow(s, id))
    ensures id !in s.bank.db.interbank ==> Do(s, a).bank.db.interbank[id].status == BankAModel.DEBITED
    ensures id in s.bank.db.interbank && Do(s, a).bank.db.interbank[id].status != s.bank.db.interbank[id].status ==>
              && a.AtBank? && (a.bankAction.Confirm? || a.bankAction.Compensate?)
              && a.bankAction.outcome in s.bank.handlers && a.bankAction.outcome.id == id
              && Do(s, a).bank.db.interbank[id].status ==
                 (if a.bankAction.outcome.verdict == HubModel.CONFIRMED then BankAModel.CONFIRMED
                  else BankAModel.COMPENSATED)
  {
    if a.AtBank? {
      match a.bankAction
      case Interbank(_, _, _, _) =>
      case _ =>
    }
  }

  lemma StepKeepsAgrees(s: System, a: Action, id: Uuid)
    requires Inv(s) && Enabled(s, a) && id in Do(s, a).bank.db.interbank
    ensures Agrees(Do(s, a), id)
  {
    var t := Do(s, a);
    SagaRows(s);
    StatusChange(s, a, id);
    if id in s.bank.db.interbank {
      assert Agrees(s, id);
      forall verdict: HubModel.Verdict | VerdictHolds(s, id, verdict) ensures VerdictHolds(t, id, verdict) {
        StepKeepsVerdict(s, a, id, verdict);
      }
      if t.bank.db.interbank[id].status != s.bank.db.interbank[id].status {
        assert OutcomeOk(s, a.bankAction.outcome);
      }
    }
  }

  lemma StepKeepsInv(s: System, a: Action)
    requires Inv(s) && Enabled(s, a) && Careful(s, a)
    ensures Inv(Do(s, a))
  {
    var t := Do(s, a);
    StepKeepsTerms(s, a);
    if a.AtHub? { H.StepKeepsOutcomesTrue(s.hub, a.hubAction); }
    forall o | o in t.outcomes ensures OutcomeOk(t, o) { StepKeepsOutcomeOk(s, a, o); }
    forall o | o in t.bank.handlers ensures OutcomeOk(t, o) { StepKeepsOutcomeOk(s, a, o); }
    forall id | id in t.bank.db.interbank ensures Agrees(t, id) { StepKeepsAgrees(s, a, id); }
  }

  lemma {:induction false} RunKeepsInv(s: System, run: seq<Action>)
    requires Inv(s) && Legal(s, run) && CarefulRun(s, run)
    ensures Inv(After(s, run))
    decreases |run|
  {
    if run != [] {
      StepKeepsInv(s, run[0]);
      RunKeepsInv(Do(s, run[0]), run[1..]);
    }
  }

  lemma CarefulSparedStep(s: System, a: Action)
    requires Inv(s) && A.StateSpared(s.bank.db) && Enabled(s, a) && (a.AtBank? ==> A.SparesKeys(a.bankAction))
    ensures a.AtBank? ==> A.Sound(s.bank, a.bankAction)
    ensures A.StateSpared(Do(s, a).bank.db)
  {
    if a.AtBank? {
      if a.bankAction.Compensate? { NoLateCompensation(s, a.bankAction); }
      A.SparedStepIsSound(s.bank, a.bankAction);
      A.StepKeepsStateSpared(s.bank, a.bankAction);
    }
  }

  lemma SoundPartCons(s: System, a: Action, rest: seq<Action>)
    requires Enabled(s, a) && (a.AtBank? ==> A.Sound(s.bank, a.bankAction))
    requires A.Legal(Do(s, a).bank, BankPart(rest)) && A.SoundRun(Do(s, a).bank, BankPart(rest))
    ensures A.Legal(s.bank, BankPart([a] + rest)) && A.SoundRun(s.bank, BankPart([a] + rest))
  {
    assert ([a] + rest)[1..] == rest;
    if a.AtBank? {
      A.SoundCons(s.bank, a.bankAction, BankPart(rest));
    } else {
      assert BankPart([a] + rest) == BankPart(rest);
    }
  }

  /** In a careful run whose clients spare the compensation keys, every step of Bank A is sound. */
  lemma {:induction false} CarefulSparedRunIsSound(s: System, run: seq<Action>)
    requires Inv(s) && A.StateSpared(s.bank.db)
    requires Legal(s, run) && CarefulRun(s, run) && KeysSpared(run)
    ensures A.Legal(s.bank, BankPart(run)) && A.SoundRun(s.bank, BankPart(run))
    decreases |run|
  {
    if run != [] {
      var a, rest := run[0], run[1..];
      assert a.AtBank? ==> A.SparesKeys(a.bankAction);
      StepKeepsInv(s, a);
      CarefulSparedStep(s, a);
      KeysSparedTail(run);
      CarefulSparedRunIsSound(Do(s, a), rest);
      SoundPartCons(s, a, rest);
      assert run == [a] + rest;
    }
  }

  lemma KeysSparedTail(run: seq<Action>)
    requires run != [] && KeysSpared(run)
    ensures KeysSpared(run[1..])
  {
    assert forall i :: 0 <= i < |run[1..]| ==> run[1..][i] == run[i + 1];
  }

  // ----- putting runs together ----------------------------------------------------------------

  lemma CarefulCons(s: System, a: Action, rest: seq<Action>)
    requires Enabled(s, a) && Careful(s, a) && Legal(Do(s, a), rest) && CarefulRun(Do(s, a), rest)
    ensures Legal(s, [a] + rest) && CarefulRun(s, [a] + rest)
    ensures After(s, [a] + rest) == After(Do(s, a), rest)
  {
    assert ([a] + rest)[1..] == rest;
  }

  lemma {:induction false} CarefulConcat(s: System, first: seq<Action>, rest: seq<Action>)
    requires Legal(s, first) && CarefulRun(s, first)
    requires Legal(After(s, first), rest) && CarefulRun(After(s, first), rest)
    ensures Legal(s, first + rest) && CarefulRun(s, first + rest)
    ensures After(s, first + rest) == After(After(s, first), rest)
    decreases |first|
  {
    if first == [] {
      assert first + rest == rest;
    } else {
      CarefulConcat(Do(s, first[0]), first[1..], rest);
      CarefulCons(s, first[0], first[1..] + rest);
      ConcatTail(first, rest);
    }
  }

  function AtHubs(steps: seq<H.Action>): seq<Action> {
    if steps == [] then [] else [AtHub(steps[0])] + AtHubs(steps[1..])
  }

  /** A run of the Hub alone is a run of the system when it delivers what the transport holds. */
  lemma {:induction false} HubRunIsSystemRun(s: System, steps: seq<H.Action>)
    requires H.Legal(s.hub, steps) && H.ConsistentRun(s.hub, steps)
    requires forall i :: 0 <= i < |steps| && steps[i].Deliver? ==> steps[i].request in s.requests
    ensures Legal(s, AtHubs(steps)) && CarefulRun(s, AtHubs(steps))
    ensures After(s, AtHubs(steps)) == s.(hub := H.After(s.hub, steps))
    decreases |steps|
  {
    if steps != [] {
      var a := AtHub(steps[0]);
      assert forall i :: 0 <= i < |steps[1..]| ==> steps[1..][i] == steps[i + 1];
      HubRunIsSystemRun(Do(s, a), steps[1..]);
      CarefulCons(s, a, AtHubs(steps[1..]));
    }
  }

  function AtBanks(steps: seq<A.Action>): seq<Action> {
    if steps == [] then [] else [AtBank(steps[0])] + AtBanks(steps[1..])
  }

  /** A step of Bank A whose outcome is in the transport and whose new id nobody else knows. */
  predicate Grounded(s: System, a: A.Action) {
    && (a.Read? ==> a.outcome in s.outcomes)
    && (a.Interbank? ==> a.id !in s.hub.db.settlements && forall r :: r in s.requests ==> r.id != a.id)
  }

  /** The same for Bank A alone. */
  lemma {:induction false} BankRunIsSystemRun(s: System, steps: seq<A.Action>)
    requires A.Legal(s.bank, steps) && forall i :: 0 <= i < |steps| ==> Grounded(s, steps[i])
    ensures Legal(s, AtBanks(steps)) && CarefulRun(s, AtBanks(steps))
    ensures After(s, AtBanks(steps)) == s.(bank := A.After(s.bank, steps))
    decreases |steps|
  {
    if steps != [] {
      var a := AtBank(steps[0]);
      assert Grounded(s, steps[0]);
      forall i | 0 <= i < |steps[1..]| ensures Grounded(Do(s, a), steps[1..][i]) {
        assert Grounded(s, steps[i + 1]);
      }
      BankRunIsSystemRun(Do(s, a), steps[1..]);
      CarefulCons(s, a, AtBanks(steps[1..]));
    }
  }
}
