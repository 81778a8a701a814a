/** Bank A's reconciliation, as a service and as steps of the saga. */
module Reconciliation {
  import opened Prelude
  import BankAModel
  import HubModel
  import A = BankARuns
  import B = BankAService
  import S = Saga
  import SagaTheorems

  /** What the Hub truly answers about a settlement. */
  function ViewOf(s: S.System, id: Uuid): B.HubView {
    if id in s.hub.db.settlements then B.Found(s.hub.db.settlements[id].status) else B.NotFound
  }

  /** An outcome in the transport is read, committed and acknowledged. */
  function Applying(o: A.Outcome, refund: Uuid): seq<S.Action> {
    [S.AtBank(A.Read(o)),
     S.AtBank(if o.verdict == HubModel.CONFIRMED then A.Confirm(o) else A.Compensate(o, refund)),
     S.DropOutcome(o)]
  }

  lemma ApplyingRuns(s: S.System, o: A.Outcome, refund: Uuid)
    requires S.TermsInv(s) && o in s.outcomes && refund !in s.bank.db.transfers
    requires o.id in s.bank.db.interbank && s.bank.db.interbank[o.id].status == BankAModel.DEBITED
    ensures S.Legal(s, Applying(o, refund))
    ensures S.After(s, Applying(o, refund)) ==
            s.(bank := s.bank.(db := B.Handled(s.bank.db, o, refund)), outcomes := s.outcomes - multiset{o})
  {
    var act := if o.verdict == HubModel.CONFIRMED then A.Confirm(o) else A.Compensate(o, refund);
    B.HandleIsTwoSteps(s.bank, o, refund);
    var read := S.Do(s, S.AtBank(A.Read(o)));
    var acted := S.Do(read, S.AtBank(act));
    SagaTheorems.LegalCons(acted, S.DropOutcome(o), []);
    SagaTheorems.LegalCons(read, S.AtBank(act), [S.DropOutcome(o)]);
    SagaTheorems.LegalCons(s, S.AtBank(A.Read(o)), [S.AtBank(act), S.DropOutcome(o)]);
  }

  /** A reconciliation's message, read, committed and acknowledged at once. */
  lemma ActingRuns(s: S.System, ask: S.Action, o: A.Outcome, refund: Uuid)
    requires S.TermsInv(s) && refund !in s.bank.db.transfers
    requires o.id in s.bank.db.interbank && s.bank.db.interbank[o.id].status == BankAModel.DEBITED
    requires S.Enabled(s, ask) && S.Do(s, ask) == s.(outcomes := s.outcomes + multiset{o})
    ensures var run := [ask] + Applying(o, refund);
            && S.Legal(s, run)
            && S.After(s, run) == s.(bank := s.bank.(db := B.Handled(s.bank.db, o, refund)))
    ensures var interbank := B.Handled(s.bank.db, o, refund).interbank;
            && o.id in interbank
            && interbank[o.id].status ==
               if o.verdict == HubModel.CONFIRMED then BankAModel.CONFIRMED else BankAModel.COMPENSATED
  {
    S.StepKeepsTerms(s, ask);
    ApplyingRuns(S.Do(s, ask), o, refund);
    SagaTheorems.LegalCons(s, ask, Applying(o, refund));
    assert (s.outcomes + multiset{o}) - multiset{o} == s.outcomes;
    B.HandledStatus(s.bank.db, o, refund);
  }

  /** Reconciling a transfer with the Hub's true view is a saga run that ends in the tables the
      service's `ReconcileOne` leaves: the reconciliation's message, read, committed and
      acknowledged, or nothing while the settlement is PENDING. A confirmed settlement confirms
      the transfer; a reversed, rejected or missing one compensates it. */
  lemma ReconcilingIsASagaRun(s: S.System, id: Uuid, refund: Uuid) returns (run: seq<S.Action>)
    requires S.TermsInv(s) && refund !in s.bank.db.transfers
    requires id in s.bank.db.interbank && s.bank.db.interbank[id].status == BankAModel.DEBITED
    ensures S.Legal(s, run)
    ensures S.After(s, run) == s.(bank := S.After(s, run).bank) && S.After(s, run).bank.handlers == s.bank.handlers
    ensures match ViewOf(s, id)
            case NotFound =>
              && B.VerdictOf(B.NotFound) == Some(HubModel.REJECTED)
              && run == [S.ReconcileAbsent(id)] + Applying(A.Outcome(id, HubModel.REJECTED), refund)
              && S.After(s, run).bank.db == B.Handled(s.bank.db, A.Outcome(id, HubModel.REJECTED), refund)
            case Found(status) =>
              if status == HubModel.PENDING then run == [] && B.VerdictOf(B.Found(status)) == None
              else
                && B.VerdictOf(B.Found(status)) == Some(status)
                && run == [S.ReconcileSettled(id)] + Applying(A.Outcome(id, status), refund)
                && S.After(s, run).bank.db == B.Handled(s.bank.db, A.Outcome(id, status), refund)
    ensures var known, interbank := s.hub.db.settlements, S.After(s, run).bank.db.interbank;
            && id in interbank
            && interbank[id].status ==
               if id !in known then BankAModel.COMPENSATED
               else if known[id].status == HubModel.PENDING then BankAModel.DEBITED
               else if known[id].status == HubModel.CONFIRMED then BankAModel.CONFIRMED
               else BankAModel.COMPENSATED
  {
    if ViewOf(s, id) == B.Found(HubModel.PENDING) {
      run := [];
    } else {
      var verdict := if id in s.hub.db.settlements then s.hub.db.settlements[id].status else HubModel.REJECTED;
      var o := A.Outcome(id, verdict);
      var ask := if id in s.hub.db.settlements then S.ReconcileSettled(id) else S.ReconcileAbsent(id);
      ActingRuns(s, ask, o, refund);
      run := [ask] + Applying(o, refund);
    }
  }
}
