/** What every run of the saga guarantees. */
module SagaTheorems {
  import opened Prelude
  import opened Totals
  import opened Ledger
  import opened Saga
  import BankAModel
  import HubModel
  import A = BankARuns
  import H = HubRuns

  /** The two databases never contradict each other: a transfer Bank A confirmed is confirmed at
      the Hub, and one it compensated is reversed or rejected there, or has no record and will
      have none whatever happens next. */
  lemma DatabasesAgree(run: seq<Action>, id: Uuid)
    requires Legal(START, run) && CarefulRun(START, run) && id in After(START, run).bank.db.interbank
    ensures var s := After(START, run);
            var status := s.bank.db.interbank[id].status;
            && (status == BankAModel.CONFIRMED ==>
                  id in s.hub.db.settlements && s.hub.db.settlements[id].status == HubModel.CONFIRMED)
            && (status == BankAModel.COMPENSATED ==>
                  || (id in s.hub.db.settlements && s.hub.db.settlements[id].status == HubModel.REVERSED)
                  || (id in s.hub.db.settlements && s.hub.db.settlements[id].status == HubModel.REJECTED)
                  || forall later :: Legal(s, later) ==> id !in After(s, later).hub.db.settlements)
  {
    StartInv();
    RunKeepsInv(START, run);
    var s := After(START, run);
    assert Agrees(s, id);
    if StaysAbsent(s, id) {
      forall later | Legal(s, later) ensures id !in After(s, later).hub.db.settlements {
        RunStaysAbsent(s, later, id);
      }
    }
  }

  /** Bank A's books in a careful run: no checked account is overdrawn; compensated transfers are
      refunded and confirmed ones are not if and only if every step of Bank A is sound, which
      the Hub guarantees but for clients who spell a compensation key; if they spare those, each
      transfer is refunded once exactly when it is compensated. */
  lemma BankBooksAreExact(run: seq<Action>, id: Uuid)
    requires Legal(START, run) && CarefulRun(START, run) && id in After(START, run).bank.db.interbank
    ensures A.Legal(A.START, BankPart(run))
    ensures var db := After(START, run).bank.db;
            && BankAModel.RowsOk(db) && BankAModel.NoOverdraft(db)
            && (BankAModel.RefundsOk(db) <==> A.SoundRun(A.START, BankPart(run)))
            && (A.SoundRun(A.START, BankPart(run)) && SuspenseLeftAlone(run) ==> BankAModel.BankOk(db))
            && (KeysSpared(run) ==>
                  && A.SoundRun(A.START, BankPart(run))
                  && (db.interbank[id].status == BankAModel.COMPENSATED <==>
                        exists c :: BankAModel.IsRefundOf(db, c, id))
                  && (forall c, d :: BankAModel.IsRefundOf(db, c, id) && BankAModel.IsRefundOf(db, d, id) ==> c == d))
  {
    BankAModel.EmptyBankOk();
    BankPartIsRun(START, run);
    A.AnyRunKeepsBooks(A.START, BankPart(run));
    A.RunKeepsRefundsIff(A.START, BankPart(run));
    A.RunKeepsBankInvIff(A.START, BankPart(run));
    if SuspenseLeftAlone(run) {
      PartSatisfies(run, A.LeavesSuspenseAlone);
    }
    if KeysSpared(run) {
      StartInv();
      CarefulSparedRunIsSound(START, run);
      PartSatisfies(run, A.SparesKeys);
      A.SoundRunCompensatesExactlyOnce(BankPart(run), id);
    }
  }

  // ----- conservation -----------------------------------------------------------------------

  /** The Hub is holding or has paid out the money of this transfer. */
  predicate HubHolds(s: System, id: Uuid) {
    id in s.hub.db.settlements && HubModel.Holds(s.hub.db.settlements[id])
  }

  /** Hub PENDING and CONFIRMED settlements with this bank as payer. */
  ghost function HeldForBank(s: System): map<Uuid, int> {
    map id | id in s.hub.db.settlements && s.hub.db.settlements[id].payer == BankAModel.BANK_ID ::
      if HubHolds(s, id) then s.hub.db.settlements[id].amount else 0
  }

  /** Debited transfers whose money is at neither side of a live settlement. */
  predicate InTransit(s: System, id: Uuid)
    requires id in s.bank.db.interbank
  {
    s.bank.db.interbank[id].status == BankAModel.DEBITED && !HubHolds(s, id)
  }

  ghost function InTransitAmounts(s: System): map<Uuid, int> {
    map id | id in s.bank.db.interbank && id in s.bank.db.transfers ::
      if InTransit(s, id) then s.bank.db.transfers[id].amount else 0
  }

  function HeldBySagaRow(s: System): map<Uuid, int> {
    map id | id in s.bank.db.interbank && id in s.bank.db.transfers ::
      if HubHolds(s, id) then s.bank.db.transfers[id].amount else 0
  }

  lemma HeldAmountsMatch(s: System)
    requires Inv(s)
    ensures Total(HeldForBank(s)) == Total(HeldBySagaRow(s))
  {
    var held, bySaga := HeldForBank(s), HeldBySagaRow(s);
    SagaRows(s);
    forall id | id in held ensures id in bySaga && bySaga[id] == held[id] {
      assert SettlementOk(s, id);
    }
    forall id | id in bySaga ensures bySaga[id] == if id in held then held[id] else 0 {
      if id in s.hub.db.settlements {
        assert SettlementOk(s, id);
      }
    }
    TotalPadded(held, bySaga);
  }

  lemma ParkedSplits(s: System, id: Uuid)
    requires Inv(s) && id in s.bank.db.interbank
    ensures SagaRow(s, id)
    ensures BankAModel.Parked(s.bank.db, id) == HeldBySagaRow(s)[id] + InTransitAmounts(s)[id]
  {
    SagaRows(s);
    assert Agrees(s, id);
  }

  lemma ParkedIsHeldOrInTransit(s: System)
    requires Inv(s)
    ensures Total(BankAModel.ParkedAmounts(s.bank.db)) == Total(HeldForBank(s)) + Total(InTransitAmounts(s))
  {
    var parked, held, transit := BankAModel.ParkedAmounts(s.bank.db), HeldBySagaRow(s), InTransitAmounts(s);
    forall id | id in parked ensures parked[id] == held[id] + transit[id] {
      ParkedSplits(s, id);
    }
    TotalSum(parked, held, transit);
    HeldAmountsMatch(s);
  }

  lemma NothingDebitedNothingInTransit(s: System)
    requires forall id :: id in s.bank.db.interbank ==> s.bank.db.interbank[id].status != BankAModel.DEBITED
    ensures Total(InTransitAmounts(s)) == 0
  {
    forall id | id in InTransitAmounts(s) ensures InTransitAmounts(s)[id] == 0 { assert !InTransit(s, id); }
    TotalPadded(map[], InTransitAmounts(s));
  }

  /** Compensated and never refunded, and the net of everybody else's use of suspense. */
  ghost function StrandedAtBank(s: System): int {
    Total(BankAModel.StrandedAmounts(s.bank.db))
  }

  ghost function OthersAtBank(s: System): int {
    Total(BankAModel.OtherFlows(s.bank.db))
  }

  /** In every careful run, whoever names suspense and whatever keys clients send, the suspense
      balance exceeds what the Hub holds for this bank by exactly the debited transfers the Hub
      does not hold, what is stranded, and what others moved. The last two vanish under the
      conditions that make Bank A's books exact. */
  lemma TwoLedgersConserveMoney(run: seq<Action>)
    requires Legal(START, run) && CarefulRun(START, run)
    ensures A.Legal(A.START, BankPart(run))
    ensures var s := After(START, run);
            && BalanceOf(s.bank.db.ledger, BankAModel.SUSPENSE) - Total(HeldForBank(s)) ==
               Total(InTransitAmounts(s)) + StrandedAtBank(s) + OthersAtBank(s)
            && (A.SoundRun(A.START, BankPart(run)) ==> StrandedAtBank(s) == 0)
            && (A.SoundRun(A.START, BankPart(run)) && SuspenseLeftAlone(run) ==> OthersAtBank(s) == 0)
            && ((forall id :: id in s.bank.db.interbank ==> s.bank.db.interbank[id].status != BankAModel.DEBITED) ==>
                Total(InTransitAmounts(s)) == 0)
  {
    StartInv();
    RunKeepsInv(START, run);
    BankPartIsRun(START, run);
    A.SuspenseIdentity(BankPart(run));
    if SuspenseLeftAlone(run) {
      PartSatisfies(run, A.LeavesSuspenseAlone);
    }
    var s := After(START, run);
    ParkedIsHeldOrInTransit(s);
    if forall id :: id in s.bank.db.interbank ==> s.bank.db.interbank[id].status != BankAModel.DEBITED {
      NothingDebitedNothingInTransit(s);
    }
  }

  /** Live settlements that pay this bank. */
  ghost function IncomingToBank(s: System): map<Uuid, int> {
    map id | id in s.hub.db.settlements ::
      var x := s.hub.db.settlements[id];
      if HubModel.Holds(x) && x.payee == BankAModel.BANK_ID then x.amount else 0
  }

  ghost function OutgoingFromBank(s: System): map<Uuid, int> {
    map id | id in s.hub.db.settlements ::
      var x := s.hub.db.settlements[id];
      if HubModel.Holds(x) && x.payer == BankAModel.BANK_ID then x.amount else 0
  }

  lemma ReserveSplits(s: System)
    requires HubModel.ReservesOk(s.hub.db)
    ensures BalanceOf(s.hub.db.ledger, BankAModel.BANK_ID) == Total(IncomingToBank(s)) - Total(HeldForBank(s))
  {
    var net := HubModel.Contributions(s.hub.db.settlements, BankAModel.BANK_ID);
    TotalSum(IncomingToBank(s), net, OutgoingFromBank(s));
    TotalPadded(HeldForBank(s), OutgoingFromBank(s));
  }

  /** Ledger against ledger: suspense at Bank A and Bank A's reserve at the Hub, both folded over
      their entries, add up to what other banks paid in, the debited transfers the Hub does not
      hold, what is stranded, and what others moved, if no reversal commits late. */
  lemma SuspenseAndReserveConserveMoney(run: seq<Action>)
    requires Legal(START, run) && CarefulRun(START, run)
    requires H.Legal(H.START, HubPart(run)) && H.ReversalsOnPending(H.START, HubPart(run))
    ensures var s := After(START, run);
            BalanceOf(s.bank.db.ledger, BankAModel.SUSPENSE) + BalanceOf(s.hub.db.ledger, BankAModel.BANK_ID) ==
            Total(IncomingToBank(s)) + Total(InTransitAmounts(s)) + StrandedAtBank(s) + OthersAtBank(s)
  {
    HubModel.EmptyHubOk();
    HubPartIsRun(START, run);
    H.RunKeepsReserves(H.START, HubPart(run));
    ReserveSplits(After(START, run));
    TwoLedgersConserveMoney(run);
  }

  // ----- the 404 branch ---------------------------------------------------------------------

  lemma LegalCons(s: System, a: Action, rest: seq<Action>)
    requires Enabled(s, a) && Legal(Do(s, a), rest)
    ensures Legal(s, [a] + rest) && After(s, [a] + rest) == After(Do(s, a), rest)
  {
    assert ([a] + rest)[1..] == rest;
  }

  lemma SafeAmount(s: System, id: Uuid)
    requires TermsInv(s) && SagaRow(s, id)
    ensures IsSafeInteger(Asked(s, id).amount)
  {
    assert BankAModel.RowOk(s.bank.db, id);
  }

  /** Unless the request is gone, a copy of it is in the transport or can be sent. */
  lemma RequestAtHand(s: System, id: Uuid) returns (run: seq<Action>)
    requires TermsInv(s) && SagaRow(s, id) && id !in s.hub.db.settlements && !Gone(s, id)
    ensures Legal(s, run) && CarefulRun(s, run) && Asked(s, id) in After(s, run).requests
    ensures After(s, run) == s.(requests := After(s, run).requests)
  {
    if r :| r in s.requests && r.id == id {
      assert RequestOk(s, r);
      run := [];
    } else {
      var outbox := s.bank.db.outbox;
      var row :| 0 <= row < |outbox| && outbox[row].aggregateId == id && row !in s.bank.db.published;
      OutboxRowIsAsked(s, row);
      CarefulCons(s, SendRequest(row), []);
      run := [SendRequest(row)];
    }
  }

  /** A copy in the transport can be accepted and confirmed. */
  lemma RequestCanBeConfirmed(s: System, r: HubModel.Request) returns (run: seq<Action>)
    requires r in s.requests && r.id !in s.hub.db.settlements && HubModel.RowChecks(r) && IsSafeInteger(r.amount)
    ensures Legal(s, run) && CarefulRun(s, run) && After(s, run) == s.(hub := After(s, run).hub)
    ensures var db := After(s, run).hub.db;
            r.id in db.settlements && db.settlements[r.id].status == HubModel.CONFIRMED
  {
    var reply := HubModel.Reply(r.id, HubModel.CONFIRMED, None);
    H.AcceptanceRuns(s.hub, r);
    HubRunIsSystemRun(s, H.Acceptance(r));
    var accepted := After(s, AtHubs(H.Acceptance(r)));
    H.SettlingRuns(accepted.hub, reply);
    HubRunIsSystemRun(accepted, H.Settling(reply));
    run := AtHubs(H.Acceptance(r)) + AtHubs(H.Settling(reply));
    CarefulConcat(s, AtHubs(H.Acceptance(r)), AtHubs(H.Settling(reply)));
  }

  /** Unless the record stays absent, the Hub can still confirm the settlement. */
  lemma RecordCanBeConfirmed(s: System, id: Uuid) returns (run: seq<Action>)
    requires TermsInv(s) && SagaRow(s, id) && id !in s.hub.db.settlements && !StaysAbsent(s, id)
    ensures Legal(s, run) && CarefulRun(s, run) && After(s, run).bank == s.bank && After(s, run).outcomes == s.outcomes
    ensures var db := After(s, run).hub.db;
            id in db.settlements && db.settlements[id].status == HubModel.CONFIRMED
  {
    SafeAmount(s, id);
    var first := RequestAtHand(s, id);
    var rest := RequestCanBeConfirmed(After(s, first), Asked(s, id));
    CarefulConcat(s, first, rest);
    run := first + rest;
  }

  /** A 404 from the Hub stays one, whatever happens next, if and only if every copy of the
      request is gone (all its outbox rows published, none in the transport) or the request is
      one the Hub can never accept. */
  lemma NoRecordIsFinalIff(s: System, id: Uuid)
    requires TermsInv(s) && id in s.bank.db.interbank && id !in s.hub.db.settlements
    ensures (forall run :: Legal(s, run) ==> id !in After(s, run).hub.db.settlements) <==> StaysAbsent(s, id)
  {
    SagaRows(s);
    if StaysAbsent(s, id) {
      forall run | Legal(s, run) ensures id !in After(s, run).hub.db.settlements {
        RunStaysAbsent(s, run, id);
      }
    } else {
      var run := RecordCanBeConfirmed(s, id);
      assert Legal(s, run);
    }
  }

  /** A handler can act on any outcome in the transport for a DEBITED transfer. */
  lemma OutcomeCanBeApplied(s: System, o: A.Outcome) returns (run: seq<Action>)
    requires o in s.outcomes && SagaRow(s, o.id) && s.bank.db.interbank[o.id].status == BankAModel.DEBITED
    ensures Legal(s, run) && CarefulRun(s, run) && After(s, run) == s.(bank := After(s, run).bank)
    ensures var interbank := After(s, run).bank.db.interbank;
            o.id in interbank && interbank[o.id].status ==
              if o.verdict == HubModel.CONFIRMED then BankAModel.CONFIRMED else BankAModel.COMPENSATED
  {
    var refund := FreshId(s.bank.db.transfers.Keys);
    var read := AtBank(A.Read(o));
    var act := AtBank(if o.verdict == HubModel.CONFIRMED then A.Confirm(o) else A.Compensate(o, refund));
    var t := Do(s, read);
    CarefulCons(t, act, []);
    CarefulCons(s, read, [act]);
    run := [read] + [act];
  }

  /** Acting on a 404 too early: Bank A compensates and the Hub confirms the same transfer. */
  lemma EarlyReconciliationDisagrees(s: System, id: Uuid) returns (run: seq<Action>)
    requires TermsInv(s) && id in s.bank.db.interbank && id !in s.hub.db.settlements && !StaysAbsent(s, id)
    requires s.bank.db.interbank[id].status == BankAModel.DEBITED
    ensures Enabled(s, ReconcileAbsent(id))
    ensures var t := Do(s, ReconcileAbsent(id));
            Legal(t, run) && CarefulRun(t, run) &&
            var u := After(t, run);
            && id in u.bank.db.interbank && u.bank.db.interbank[id].status == BankAModel.COMPENSATED
            && id in u.hub.db.settlements && u.hub.db.settlements[id].status == HubModel.CONFIRMED
  {
    var t := Do(s, ReconcileAbsent(id));
    StepKeepsTerms(s, ReconcileAbsent(id));
    SagaRows(t);
    var first := RecordCanBeConfirmed(t, id);
    var confirmed := After(t, first);
    var rest := OutcomeCanBeApplied(confirmed, A.Outcome(id, HubModel.REJECTED));
    CarefulConcat(t, first, rest);
    run := first + rest;
  }

  /** With no record at the Hub, Bank A's transfer is DEBITED, or the record stays absent. */
  lemma AbsentMeansDebited(s: System, id: Uuid)
    requires Inv(s) && id in s.bank.db.interbank && id !in s.hub.db.settlements
    ensures s.bank.db.interbank[id].status == BankAModel.DEBITED || StaysAbsent(s, id)
  {
    assert Agrees(s, id);
  }

  predicate NeverContradicted(s: System, id: Uuid, run: seq<Action>) {
    Legal(s, run) && CarefulRun(s, run) && id in After(s, run).bank.db.interbank ==> Agrees(After(s, run), id)
  }

  lemma InvIsNeverContradicted(s: System, id: Uuid)
    requires Inv(s)
    ensures forall run :: NeverContradicted(s, id, run)
  {
    forall run ensures NeverContradicted(s, id, run) {
      if Legal(s, run) && CarefulRun(s, run) {
        RunKeepsInv(s, run);
      }
    }
  }

  /** Acting on a 404 keeps the two databases in agreement under every careful continuation if
      and only if the record stays absent: the request is gone, or never acceptable. */
  lemma ActingOnNoRecordIsSoundIff(s: System, id: Uuid)
    requires Inv(s) && id in s.bank.db.interbank && id !in s.hub.db.settlements
    ensures Enabled(s, ReconcileAbsent(id))
    ensures (forall run :: NeverContradicted(Do(s, ReconcileAbsent(id)), id, run)) <==> StaysAbsent(s, id)
  {
    if StaysAbsent(s, id) {
      StepKeepsInv(s, ReconcileAbsent(id));
      InvIsNeverContradicted(Do(s, ReconcileAbsent(id)), id);
    } else {
      AbsentMeansDebited(s, id);
      var run := EarlyReconciliationDisagrees(s, id);
      assert !NeverContradicted(Do(s, ReconcileAbsent(id)), id, run);
    }
  }

  // ----- two answers for one settlement -------------------------------------------------------

  /** A late reply with the other answer: its outcome row is sent and applied, and Bank A ends up
      contradicting the Hub. */
  lemma OtherAnswerDisagrees(s: System, r: HubModel.Reply) returns (run: seq<Action>)
    requires TermsInv(s) && r in s.hub.handlers && r.id in s.hub.db.settlements
    requires s.hub.db.settlements[r.id].status != HubModel.PENDING && s.hub.db.settlements[r.id].status != r.answer
    requires SagaRow(s, r.id) && s.bank.db.interbank[r.id].status == BankAModel.DEBITED
    ensures Enabled(s, AtHub(H.Commit(r))) && !H.Consistent(s.hub, H.Commit(r))
    ensures var t := Do(s, AtHub(H.Commit(r)));
            Legal(t, run) && CarefulRun(t, run) &&
            r.id in After(t, run).bank.db.interbank && !Agrees(After(t, run), r.id)
  {
    var t, row := Do(s, AtHub(H.Commit(r))), |s.hub.db.outbox|;
    assert SettlementOk(s, r.id);
    H.InconsistentCommitIsFalse(s.hub, r);
    var send := SendOutcome(row);
    assert Enabled(t, send) && Sent(t, row) == A.Outcome(r.id, r.answer);
    var sent := Do(t, send);
    var rest := OutcomeCanBeApplied(sent, A.Outcome(r.id, r.answer));
    CarefulCons(t, send, rest);
    run := [send] + rest;
  }

  /** Once Bank A's status is terminal and agrees, nothing can change that, careful or not. */
  lemma {:induction false} SettledAgreementStays(s: System, run: seq<Action>, id: Uuid)
    requires TermsInv(s) && Legal(s, run) && id in s.bank.db.interbank && Agrees(s, id)
    requires s.bank.db.interbank[id].status != BankAModel.DEBITED
    ensures id in After(s, run).bank.db.interbank && Agrees(After(s, run), id)
    decreases |run|
  {
    if run != [] {
      var t := Do(s, run[0]);
      StepGrows(s, run[0]);
      StepKeepsTerms(s, run[0]);
      forall verdict: HubModel.Verdict | VerdictHolds(s, id, verdict) ensures VerdictHolds(t, id, verdict) {
        StepKeepsVerdict(s, run[0], id, verdict);
      }
      SettledAgreementStays(t, run[1..], id);
    }
  }

  lemma SettledIsNeverContradicted(s: System, a: Action, id: Uuid)
    requires Inv(s) && Enabled(s, a) && id in s.bank.db.interbank
    requires s.bank.db.interbank[id].status != BankAModel.DEBITED
    ensures forall run :: NeverContradicted(Do(s, a), id, run)
  {
    assert Agrees(s, id);
    forall run ensures NeverContradicted(Do(s, a), id, run) {
      if Legal(Do(s, a), run) {
        LegalCons(s, a, run);
        SettledAgreementStays(s, [a] + run, id);
      }
    }
  }

  /** Committing a reply keeps the two databases in agreement under every careful continuation
      if and only if its settlement is still PENDING or was settled with the same answer, or
      Bank A has settled the transfer already. */
  lemma CommittingReplyIsSoundIff(s: System, r: HubModel.Reply)
    requires Inv(s) && r in s.hub.handlers && r.id in s.hub.db.settlements && r.id in s.bank.db.interbank
    ensures Enabled(s, AtHub(H.Commit(r)))
    ensures (forall run :: NeverContradicted(Do(s, AtHub(H.Commit(r))), r.id, run)) <==>
            || s.hub.db.settlements[r.id].status == HubModel.PENDING
            || s.hub.db.settlements[r.id].status == r.answer
            || s.bank.db.interbank[r.id].status != BankAModel.DEBITED
  {
    var commit := AtHub(H.Commit(r));
    if H.Consistent(s.hub, H.Commit(r)) {
      StepKeepsInv(s, commit);
      InvIsNeverContradicted(Do(s, commit), r.id);
    } else if s.bank.db.interbank[r.id].status != BankAModel.DEBITED {
      SettledIsNeverContradicted(s, commit, r.id);
    } else {
      SagaRows(s);
      var run := OtherAnswerDisagrees(s, r);
      assert !NeverContradicted(Do(s, commit), r.id, run);
    }
  }

  /** Two handlers with different answers read PENDING; the CONFIRMED one has committed. */
  function Overlapping(id: Uuid): seq<H.Action> {
    var confirm, reverse := HubModel.Reply(id, HubModel.CONFIRMED, None), HubModel.Reply(id, HubModel.REVERSED, None);
    [H.Read(reverse)] + H.Settling(confirm)
  }

  lemma OverlappingRuns(h: H.Hub, id: Uuid)
    requires id in h.db.settlements && h.db.settlements[id].status == HubModel.PENDING
    ensures H.Legal(h, Overlapping(id)) && H.ConsistentRun(h, Overlapping(id))
    ensures var later := H.After(h, Overlapping(id));
            && id in later.db.settlements && later.db.settlements[id].status == HubModel.CONFIRMED
            && HubModel.Reply(id, HubModel.REVERSED, None) in later.handlers
  {
    var confirm, reverse := HubModel.Reply(id, HubModel.CONFIRMED, None), HubModel.Reply(id, HubModel.REVERSED, None);
    var read := H.Do(h, H.Read(reverse));
    H.SettlingRuns(read, confirm);
    H.ConsistentCons(h, H.Read(reverse), H.Settling(confirm));
  }

  /** So overlapping handlers with two different answers break the agreement: from every state
      with a PENDING settlement and a DEBITED transfer, Bank A can refund what the Hub
      confirmed. */
  lemma OverlappingAnswersDisagree(s: System, id: Uuid) returns (run: seq<Action>)
    requires Inv(s) && id in s.bank.db.interbank && s.bank.db.interbank[id].status == BankAModel.DEBITED
    requires id in s.hub.db.settlements && s.hub.db.settlements[id].status == HubModel.PENDING
    ensures Legal(s, run)
    ensures id in After(s, run).bank.db.interbank && !Agrees(After(s, run), id)
  {
    var reverse := HubModel.Reply(id, HubModel.REVERSED, None);
    var first, commit := AtHubs(Overlapping(id)), AtHub(H.Commit(reverse));
    OverlappingRuns(s.hub, id);
    HubRunIsSystemRun(s, Overlapping(id));
    RunKeepsInv(s, first);
    var t := After(s, first);
    SagaRows(t);
    var rest := OtherAnswerDisagrees(t, reverse);
    LegalCons(t, commit, rest);
    LegalConcat(s, first, [commit] + rest);
    run := first + ([commit] + rest);
  }

  lemma {:induction false} LegalConcat(s: System, first: seq<Action>, rest: seq<Action>)
    requires Legal(s, first) && Legal(After(s, first), rest)
    ensures Legal(s, first + rest) && After(s, first + rest) == After(After(s, first), rest)
    decreases |first|
  {
    if first == [] {
      assert first + rest == rest;
    } else {
      LegalConcat(Do(s, first[0]), first[1..], rest);
      LegalCons(s, first[0], first[1..] + rest);
      ConcatTail(first, rest);
    }
  }
}
