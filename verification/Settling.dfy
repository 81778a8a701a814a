/**
 What can happen, as opposed to what must not: from every idle state of the whole deployment a
 valid payment can be booked, relayed, accepted, answered and applied, and both databases end
 with the payee bank's answer.
 */
module Settling {
  import opened Prelude
  import opened Ledger
  import opened Outbox
  import opened Deployment
  import BankAModel
  import HubModel
  import A = BankARuns
  import H = HubRuns
  import S = Saga
  import T = TransferConcurrency
  import R = Relay
  import C = CallsAlone

  // ----- putting runs together --------------------------------------------------------------

  lemma CarefulCons(d: System, a: Action, rest: seq<Action>)
    requires Enabled(d, a) && Careful(d, a) && Legal(Do(d, a), rest) && CarefulRun(Do(d, a), rest)
    ensures Legal(d, [a] + rest) && CarefulRun(d, [a] + rest)
    ensures After(d, [a] + rest) == After(Do(d, a), rest)
  {
    assert ([a] + rest)[1..] == rest;
  }

  lemma {:induction false} CarefulConcat(d: System, first: seq<Action>, rest: seq<Action>)
    requires Legal(d, first) && CarefulRun(d, first)
    requires Legal(After(d, first), rest) && CarefulRun(After(d, first), rest)
    ensures Legal(d, first + rest) && CarefulRun(d, first + rest)
    ensures After(d, first + rest) == After(After(d, first), rest)
    decreases |first|
  {
    if first == [] {
      assert first + rest == rest;
    } else {
      CarefulConcat(Do(d, first[0]), first[1..], rest);
      CarefulCons(d, first[0], first[1..] + rest);
      ConcatTail(first, rest);
    }
  }

  lemma {:induction false} RunKeepsInv(d: System, run: seq<Action>)
    requires Inv(d) && Legal(d, run)
    ensures Inv(After(d, run))
    decreases |run|
  {
    if run != [] {
      StepKeepsInv(d, run[0]);
      RunKeepsInv(Do(d, run[0]), run[1..]);
    }
  }

  // ----- each party may do what it can do alone -----------------------------------------------

  function AtBankAll(run: seq<T.Action>): seq<Action> {
    if run == [] then [] else [AtBank(run[0])] + AtBankAll(run[1..])
  }

  predicate Grounded(d: System, b: T.Action) {
    && (b.Start? ==> Unseen(d, b.id) && (b.kind.Refund? ==> b.kind.outcome in d.outcomes))
    && (b.Confirm? ==> b.outcome in d.outcomes)
  }

  lemma {:induction false} BankRunLifts(d: System, run: seq<T.Action>)
    requires T.Legal(d.world, run) && d.bankRelay.rows == |d.world.db.outbox|
    requires forall i :: 0 <= i < |run| ==> Grounded(d, run[i])
    ensures Legal(d, AtBankAll(run)) && CarefulRun(d, AtBankAll(run))
    ensures var world := T.After(d.world, run);
            After(d, AtBankAll(run)) == d.(world := world, bankRelay := d.bankRelay.(rows := |world.db.outbox|))
    decreases |run|
  {
    if run != [] {
      var next := Do(d, AtBank(run[0]));
      assert forall i :: 0 <= i < |run[1..]| ==> run[1..][i] == run[i + 1];
      forall i | 0 <= i < |run[1..]| ensures Grounded(next, run[1..][i]) {
        assert Grounded(d, run[i + 1]);
      }
      BankRunLifts(next, run[1..]);
      CarefulCons(d, AtBank(run[0]), AtBankAll(run[1..]));
    }
  }

  /** Relays may tick at any time, overlapping and failing anywhere; the transport and the sweep do
      here what they do in the saga; and no step but those of the saga's kind is ruled out by
      care. */
  lemma RelaysAndTransportActFreely(d: System, r: R.Action, t: S.Action, a: Action)
    ensures R.Enabled(d.bankRelay, r) && !r.Insert? && !r.Appear? ==>
              Enabled(d, BankRelay(r)) && Do(d, BankRelay(r)).bankRelay == R.Do(d.bankRelay, r)
    ensures R.Enabled(d.hubRelay, r) && !r.Insert? && !r.Appear? ==>
              Enabled(d, HubRelay(r)) && Do(d, HubRelay(r)).hubRelay == R.Do(d.hubRelay, r)
    ensures && (t.DuplicateRequest? || t.DropRequest? || t.DuplicateOutcome? || t.DropOutcome?
                || t.ReconcileSettled? || t.ReconcileAbsent?)
            && S.Enabled(Base(d), t) ==>
              && Enabled(d, Transport(t)) && (Careful(d, Transport(t)) <==> S.Careful(Base(d), t))
              && Do(d, Transport(t)).requests == S.Do(Base(d), t).requests
              && Do(d, Transport(t)).outcomes == S.Do(Base(d), t).outcomes
    ensures t.ForeignRequest? && S.Enabled(Base(d), t)
            && (forall c :: c in d.world.calls ==> d.world.calls[c].id != t.request.id) ==>
              Enabled(d, Transport(t)) && Do(d, Transport(t)).requests == d.requests + multiset{t.request}
    ensures Enabled(d, a) && !a.Transport? && !(a.AtHub? && a.hubAction.Commit?) ==> Careful(d, a)
  {
  }

  function AtHubAll(run: seq<H.Action>): seq<Action> {
    if run == [] then [] else [AtHub(run[0])] + AtHubAll(run[1..])
  }

  lemma {:induction false} HubRunLifts(d: System, run: seq<H.Action>)
    requires H.Legal(d.hub, run) && H.ConsistentRun(d.hub, run) && d.hubRelay.rows == |d.hub.db.outbox|
    requires forall i :: 0 <= i < |run| ==> !run[i].MarkPublished? && (run[i].Deliver? ==> run[i].request in d.requests)
    ensures Legal(d, AtHubAll(run)) && CarefulRun(d, AtHubAll(run))
    ensures var hub := H.After(d.hub, run);
            After(d, AtHubAll(run)) == d.(hub := hub, hubRelay := d.hubRelay.(rows := |hub.db.outbox|))
    decreases |run|
  {
    if run != [] {
      assert forall i :: 0 <= i < |run[1..]| ==> run[1..][i] == run[i + 1];
      HubRunLifts(Do(d, AtHub(run[0])), run[1..]);
      CarefulCons(d, AtHub(run[0]), AtHubAll(run[1..]));
    }
  }

  lemma LastRowIsBatch(rows: nat, taken: set<nat>)
    requires 0 < rows && rows - 1 !in taken && forall row: nat :: row < rows - 1 ==> row in taken
    ensures R.Batch(rows, taken) == [rows - 1]
  {
    R.NothingUntaken(rows - 1, taken);
  }

  /** Only the newest row of a relay's table waits. */
  predicate OneWaits(table: R.Table) {
    && table.ticks == map[] && 0 < table.rows && table.hidden == {}
    && table.rows - 1 !in table.published && forall row: nat :: row < table.rows - 1 ==> row in table.published
  }

  /** The table after a tick that has sent it. */
  function Ticked(table: R.Table): R.Table
    requires 0 < table.rows
  {
    table.(published := table.published + {table.rows - 1}, sends := table.sends + [table.rows - 1])
  }

  lemma TickSteps(table: R.Table)
    requires OneWaits(table)
    ensures R.Enabled(table, R.Claim(0))
    ensures var claimed := R.Do(table, R.Claim(0));
            && R.Enabled(claimed, R.Publish(0)) && NextRow(claimed, 0) == table.rows - 1
            && var sent := R.Do(claimed, R.Publish(0));
               R.Enabled(sent, R.Commit(0)) && R.Do(sent, R.Commit(0)) == Ticked(table)
  {
    assert R.Locked(table.ticks) == {};
    assert R.Unavailable(table) == table.published;
    LastRowIsBatch(table.rows, table.published);
    var sent := R.Do(R.Do(table, R.Claim(0)), R.Publish(0));
    assert R.Ids([table.rows - 1]) == {table.rows - 1};
    assert sent.ticks - {0} == map[];
  }

  lemma BankTicks(d: System) returns (run: seq<Action>)
    requires OneWaits(d.bankRelay) && d.bankRelay.rows == |d.world.db.outbox|
    requires d.bankRelay.published == d.world.db.published
    ensures Legal(d, run) && CarefulRun(d, run)
    ensures var row := d.bankRelay.rows - 1;
            After(d, run) == d.(
                 bankRelay := Ticked(d.bankRelay),
                 world := d.world.(db := d.world.db.(published := d.world.db.published + {row})),
                 requests := d.requests + multiset{d.world.db.outbox[row].payload})
  {
    TickSteps(d.bankRelay);
    var claimed := Do(d, BankRelay(R.Claim(0)));
    var sent := Do(claimed, BankRelay(R.Publish(0)));
    CarefulCons(sent, BankRelay(R.Commit(0)), []);
    CarefulCons(claimed, BankRelay(R.Publish(0)), [BankRelay(R.Commit(0))]);
    CarefulCons(d, BankRelay(R.Claim(0)), [BankRelay(R.Publish(0)), BankRelay(R.Commit(0))]);
    run := [BankRelay(R.Claim(0))] + [BankRelay(R.Publish(0)), BankRelay(R.Commit(0))];
  }

  lemma HubTicks(d: System) returns (run: seq<Action>)
    requires OneWaits(d.hubRelay) && d.hubRelay.rows == |d.hub.db.outbox|
    requires d.hubRelay.published == d.hub.db.published
    ensures Legal(d, run) && CarefulRun(d, run)
    ensures var row := d.hubRelay.rows - 1;
            After(d, run) == d.(
                 hubRelay := Ticked(d.hubRelay),
                 hub := d.hub.(db := d.hub.db.(published := d.hub.db.published + {row})),
                 outcomes := d.outcomes + OutcomesIn(d.hub.db.outbox, row))
  {
    TickSteps(d.hubRelay);
    var claimed := Do(d, HubRelay(R.Claim(0)));
    var sent := Do(claimed, HubRelay(R.Publish(0)));
    CarefulCons(sent, HubRelay(R.Commit(0)), []);
    CarefulCons(claimed, HubRelay(R.Publish(0)), [HubRelay(R.Commit(0))]);
    CarefulCons(d, HubRelay(R.Claim(0)), [HubRelay(R.Publish(0)), HubRelay(R.Commit(0))]);
    run := [HubRelay(R.Claim(0))] + [HubRelay(R.Publish(0)), HubRelay(R.Commit(0))];
  }

  // ----- one payment ------------------------------------------------------------------------

  predicate BankIdle(d: System) {
    && (forall c :: c in d.world.calls ==> d.world.calls[c].phase.Done?)
    && d.bankRelay.ticks == map[]
    && (forall row: nat :: row < |d.world.db.outbox| ==> row in d.world.db.published)
    && (forall row :: row in d.world.db.published ==> row < |d.world.db.outbox|)
  }

  predicate HubIdle(d: System) {
    && d.hubRelay.ticks == map[]
    && (forall row: nat :: row < |d.hub.db.outbox| ==> row in d.hub.db.published)
    && (forall row :: row in d.hub.db.published ==> row < |d.hub.db.outbox|)
  }

  /** The deployment after Hub steps that wrote one outbox row, and a tick that sent it. */
  function Acted(d: System, hub: H.Hub, row: nat): System {
    d.(hub := hub.(db := hub.db.(published := hub.db.published + {row})),
       hubRelay := Ticked(d.hubRelay.(rows := row + 1)),
       outcomes := d.outcomes + OutcomesIn(hub.db.outbox, row))
  }

  /** In between: the row is written and waits. */
  function Wrote(d: System, hub: H.Hub): System {
    d.(hub := hub, hubRelay := d.hubRelay.(rows := |hub.db.outbox|))
  }

  lemma WrittenRowIsSent(d: System, hub: H.Hub) returns (tick: seq<Action>)
    requires RelayOk(d.hubRelay, |d.hub.db.outbox|, d.hub.db.published) && HubIdle(d)
    requires |hub.db.outbox| == |d.hub.db.outbox| + 1 && hub.db.published == d.hub.db.published
    ensures Legal(Wrote(d, hub), tick) && CarefulRun(Wrote(d, hub), tick)
    ensures After(Wrote(d, hub), tick) == Acted(d, hub, |d.hub.db.outbox|)
  {
    tick := HubTicks(Wrote(d, hub));
  }

  lemma ActedIsHubIdle(d: System, hub: H.Hub)
    requires RelayOk(d.hubRelay, |d.hub.db.outbox|, d.hub.db.published) && HubIdle(d)
    requires |hub.db.outbox| == |d.hub.db.outbox| + 1 && hub.db.published == d.hub.db.published
    ensures HubIdle(Acted(d, hub, |d.hub.db.outbox|))
  {
  }

  lemma HubActs(d: System, steps: seq<H.Action>) returns (run: seq<Action>)
    requires RelayOk(d.hubRelay, |d.hub.db.outbox|, d.hub.db.published) && HubIdle(d)
    requires H.Legal(d.hub, steps) && H.ConsistentRun(d.hub, steps)
    requires forall i :: 0 <= i < |steps| ==>
               !steps[i].MarkPublished? && (steps[i].Deliver? ==> steps[i].request in d.requests)
    requires |H.After(d.hub, steps).db.outbox| == |d.hub.db.outbox| + 1
    requires H.After(d.hub, steps).db.published == d.hub.db.published
    ensures Legal(d, run) && CarefulRun(d, run)
    ensures After(d, run) == Acted(d, H.After(d.hub, steps), |d.hub.db.outbox|) && HubIdle(After(d, run))
  {
    var hub := H.After(d.hub, steps);
    HubRunLifts(d, steps);
    var tick := WrittenRowIsSent(d, hub);
    CarefulConcat(d, AtHubAll(steps), tick);
    run := AtHubAll(steps) + tick;
    ActedIsHubIdle(d, hub);
  }

  /** The Hub takes a request the transport holds, and its relay sends the notification. */
  lemma RequestIsAccepted(d: System, r: HubModel.Request) returns (run: seq<Action>)
    requires Inv(d) && HubIdle(d) && r in d.requests && r.id !in d.hub.db.settlements
    requires HubModel.RowChecks(r) && IsSafeInteger(r.amount)
    ensures Legal(d, run) && CarefulRun(d, run) && HubIdle(After(d, run))
    ensures var later := After(d, run);
            && later == d.(hub := later.hub, hubRelay := later.hubRelay)
            && later.hub.db.settlements.Keys == d.hub.db.settlements.Keys + {r.id}
            && later.hub.db.settlements[r.id] ==
               HubModel.Settlement(r.payer, r.payee, r.accountRef, r.amount, HubModel.PENDING, None)
  {
    H.AcceptanceRuns(d.hub, r);
    run := HubActs(d, H.Acceptance(r));
    assert OutcomesIn(H.After(d.hub, H.Acceptance(r)).db.outbox, |d.hub.db.outbox|) == multiset{};
  }

  /** The payee bank's reply settles it, and the relay sends the outcome. */
  lemma ReplyIsSettled(d: System, reply: HubModel.Reply) returns (run: seq<Action>)
    requires Inv(d) && HubIdle(d) && reply.id in d.hub.db.settlements
    requires d.hub.db.settlements[reply.id].status == HubModel.PENDING
    requires d.hub.db.settlements[reply.id].payer == BankAModel.BANK_ID
    ensures Legal(d, run) && CarefulRun(d, run) && HubIdle(After(d, run))
    ensures var later := After(d, run);
            && later == d.(hub := later.hub, hubRelay := later.hubRelay, outcomes := later.outcomes)
            && later.outcomes == d.outcomes + multiset{A.Outcome(reply.id, reply.answer)}
            && reply.id in later.hub.db.settlements && later.hub.db.settlements[reply.id].status == reply.answer
            && later.hub.db.settlements.Keys == d.hub.db.settlements.Keys
  {
    H.SettlingRuns(d.hub, reply);
    run := HubActs(d, H.Settling(reply));
  }

  // ----- Bank A's part ------------------------------------------------------------------------

  /** The deployment after statements that committed one outbox row, and a tick that sent it. */
  function ActedAtBank(d: System, world: T.World, row: nat): System
    requires row < |world.db.outbox|
  {
    d.(world := world.(db := world.db.(published := world.db.published + {row})),
       bankRelay := Ticked(d.bankRelay.(rows := row + 1)),
       requests := d.requests + multiset{world.db.outbox[row].payload})
  }

  lemma ActedIsIdle(d: System, world: T.World)
    requires BankIdle(d) && world.db.published == d.world.db.published
    requires |world.db.outbox| == |d.world.db.outbox| + 1
    requires forall c :: c in world.calls ==> world.calls[c].phase.Done?
    ensures BankIdle(ActedAtBank(d, world, |d.world.db.outbox|))
  {
  }

  lemma BankActs(d: System, steps: seq<T.Action>) returns (run: seq<Action>)
    requires RelayOk(d.bankRelay, |d.world.db.outbox|, d.world.db.published) && BankIdle(d)
    requires T.Legal(d.world, steps) && forall i :: 0 <= i < |steps| ==> Grounded(d, steps[i])
    requires |T.After(d.world, steps).db.outbox| == |d.world.db.outbox| + 1
    requires T.After(d.world, steps).db.published == d.world.db.published
    ensures Legal(d, run) && CarefulRun(d, run)
    ensures After(d, run) == ActedAtBank(d, T.After(d.world, steps), |d.world.db.outbox|)
  {
    BankRunLifts(d, steps);
    var acted := After(d, AtBankAll(steps));
    var tick := BankTicks(acted);
    CarefulConcat(d, AtBankAll(steps), tick);
    run := AtBankAll(steps) + tick;
  }

  lemma OwnStatementsAreGrounded(d: System, start: T.Action, rest: seq<T.Action>, c: nat)
    requires Grounded(d, start) && C.OwnStatements(rest, c)
    ensures forall i :: 0 <= i < |[start] + rest| ==> Grounded(d, ([start] + rest)[i])
  {
    forall i | 0 <= i < |[start] + rest| ensures Grounded(d, ([start] + rest)[i]) {
      if i > 0 {
        assert ([start] + rest)[i] == rest[i - 1] && C.OwnStatement(rest[i - 1], c);
      }
    }
  }

  predicate Payable(db: BankAModel.BankDb, t: BankAModel.Transfer, payeeRef: string) {
    && 0 < t.amount && t.payer != t.payee && t.payee == BankAModel.SUSPENSE && 1 <= |payeeRef| <= 255
    && t.payer in db.accounts && t.payee in db.accounts
    && t.key !in db.keys && (t.key.PlainKey? ==> 1 <= |t.key.text| <= 255)
    && t.amount <= BalanceOf(db.ledger, t.payer) <= 9007199254740991
  }

  lemma BookingStatements(w: T.World, c: nat, id: Uuid, t: BankAModel.Transfer, payeeBank: BankId, payeeRef: string)
    returns (run: seq<T.Action>)
    requires T.Inv(w) && C.Fresh(w, c, id) && Payable(w.db, t, payeeRef)
    ensures T.Legal(w, run) && run != [] && run[0] == T.Start(c, T.Interbank(payeeBank, payeeRef), id, t)
    ensures C.OwnStatements(run[1..], c)
    ensures T.After(w, run).db == BankAModel.Debited(w.db, id, t, payeeBank, payeeRef)
    ensures c in T.After(w, run).calls && T.After(w, run).calls[c].id == id && T.After(w, run).calls[c].phase.Done?
    ensures T.After(w, run).calls == w.calls[c := T.After(w, run).calls[c]]
  {
    var kind := T.Interbank(payeeBank, payeeRef);
    C.AffordableAnswer(w.db, kind, id, t);
    run := C.ClientCallAnswers(w, c, kind, id, t);
    C.OwnCallFrame(w, run, c);
  }

  /** A client's valid payment is booked, and the relay sends the request. */
  lemma PaymentIsBooked(d: System, c: nat, id: Uuid, t: BankAModel.Transfer, payeeBank: BankId, payeeRef: string)
    returns (run: seq<Action>)
    requires Inv(d) && BankIdle(d) && C.Fresh(d.world, c, id) && Unseen(d, id)
    requires Payable(d.world.db, t, payeeRef)
    ensures Legal(d, run) && CarefulRun(d, run) && BankIdle(After(d, run))
    ensures var later := After(d, run);
            && later == d.(world := later.world, bankRelay := later.bankRelay, requests := later.requests)
            && later.requests == d.requests
                 + multiset{HubModel.Request(id, BankAModel.BANK_ID, payeeBank, payeeRef, t.amount)}
            && later.world.db == BankAModel.Debited(d.world.db, id, t, payeeBank, payeeRef)
                                 .(published := later.world.db.published)
            && c in later.world.calls && later.world.calls[c].id == id
            && later.world.calls == d.world.calls[c := later.world.calls[c]]
  {
    var steps := BookingStatements(d.world, c, id, t, payeeBank, payeeRef);
    OwnStatementsAreGrounded(d, steps[0], steps[1..], c);
    assert steps == [steps[0]] + steps[1..];
    run := BankActs(d, steps);
    ActedIsIdle(d, T.After(d.world, steps));
  }

  lemma RefundIsBooked(d: System, c: nat, o: A.Outcome, refund: Uuid) returns (run: seq<Action>)
    requires Inv(d) && BankIdle(d) && C.Fresh(d.world, c, refund) && Unseen(d, refund) && o in d.outcomes
    requires o.id in d.world.db.interbank && d.world.db.interbank[o.id].status == BankAModel.DEBITED
    requires o.verdict != HubModel.CONFIRMED
    ensures Legal(d, run) && CarefulRun(d, run) && o.id in d.world.db.transfers
    ensures var later := After(d, run);
            && later == d.(world := later.world)
            && later.world.db == BankAModel.Compensated(d.world.db, o.id, refund)
            && forall x :: x in later.world.calls ==> later.world.calls[x].phase.Done?
  {
    var steps := C.RefundAlone(d.world, c, o, refund);
    C.OwnCallFrame(d.world, steps, c);
    OwnStatementsAreGrounded(d, steps[0], steps[1..], c);
    assert steps == [steps[0]] + steps[1..];
    BankRunLifts(d, steps);
    run := AtBankAll(steps);
  }

  /** What a handler does with an outcome for a DEBITED transfer. */
  lemma OutcomeIsApplied(d: System, c: nat, o: A.Outcome, refund: Uuid) returns (run: seq<Action>)
    requires Inv(d) && BankIdle(d) && C.Fresh(d.world, c, refund) && Unseen(d, refund) && o in d.outcomes
    requires o.id in d.world.db.interbank && d.world.db.interbank[o.id].status == BankAModel.DEBITED
    ensures Legal(d, run) && CarefulRun(d, run) && BankIdle(After(d, run))
    ensures var later := After(d, run);
            && later == d.(world := later.world)
            && (forall x :: x in d.world.db.transfers ==>
                  x in later.world.db.transfers && later.world.db.transfers[x] == d.world.db.transfers[x])
            && o.id in later.world.db.interbank
            && later.world.db.interbank[o.id].status ==
               (if o.verdict == HubModel.CONFIRMED then BankAModel.CONFIRMED else BankAModel.COMPENSATED)
  {
    if o.verdict == HubModel.CONFIRMED {
      CarefulCons(d, AtBank(T.Confirm(o)), []);
      run := [AtBank(T.Confirm(o))] + [];
    } else {
      run := RefundIsBooked(d, c, o, refund);
    }
  }

  // ----- from booking to agreement ------------------------------------------------------------

  /** A request in the transport can be accepted and answered, and the outcome sent. */
  lemma RequestCanSettle(d: System, r: HubModel.Request, reply: HubModel.Reply) returns (run: seq<Action>)
    requires Inv(d) && HubIdle(d) && r in d.requests && r.id !in d.hub.db.settlements && reply.id == r.id
    requires HubModel.RowChecks(r) && IsSafeInteger(r.amount) && r.payer == BankAModel.BANK_ID
    ensures Legal(d, run) && CarefulRun(d, run) && Inv(After(d, run)) && HubIdle(After(d, run))
    ensures var later := After(d, run);
            && later == d.(hub := later.hub, hubRelay := later.hubRelay, outcomes := later.outcomes)
            && A.Outcome(r.id, reply.answer) in later.outcomes
            && later.hub.db.settlements.Keys == d.hub.db.settlements.Keys + {r.id}
            && later.hub.db.settlements[r.id].status == reply.answer
  {
    var first := RequestIsAccepted(d, r);
    RunKeepsInv(d, first);
    var rest := ReplyIsSettled(After(d, first), reply);
    CarefulConcat(d, first, rest);
    run := first + rest;
    RunKeepsInv(d, run);
  }

  lemma BookedCanSettle(d: System, id: Uuid, amount: int, reply: HubModel.Reply, e: nat, refund: Uuid)
    returns (run: seq<Action>)
    requires Inv(d) && BankIdle(d) && HubIdle(d) && C.Fresh(d.world, e, refund) && Unseen(d, refund) && id != refund
    requires id in d.world.db.interbank && d.world.db.interbank[id].status == BankAModel.DEBITED
    requires var b := d.world.db.interbank[id];
             var r := HubModel.Request(id, BankAModel.BANK_ID, b.payeeBank, b.payeeRef, amount);
             && r in d.requests && id !in d.hub.db.settlements && reply.id == id
             && HubModel.RowChecks(r) && IsSafeInteger(amount)
    ensures Legal(d, run) && CarefulRun(d, run)
    ensures Inv(After(d, run)) && BankIdle(After(d, run)) && HubIdle(After(d, run))
    ensures var bank, hub := After(d, run).world.db, After(d, run).hub.db;
            && (forall x :: x in d.world.db.transfers ==>
                  x in bank.transfers && bank.transfers[x] == d.world.db.transfers[x])
            && id in bank.interbank && id in hub.settlements
            && hub.settlements[id].status == reply.answer
            && bank.interbank[id].status ==
               (if reply.answer == HubModel.CONFIRMED then BankAModel.CONFIRMED else BankAModel.COMPENSATED)
  {
    var b := d.world.db.interbank[id];
    var r := HubModel.Request(id, BankAModel.BANK_ID, b.payeeBank, b.payeeRef, amount);
    var first := RequestCanSettle(d, r, reply);
    var rest := OutcomeIsApplied(After(d, first), e, A.Outcome(id, reply.answer), refund);
    CarefulConcat(d, first, rest);
    run := first + rest;
    RunKeepsInv(d, run);
  }

  /** From every idle state, a valid payment to another bank that the Hub can take runs through to
      the payee bank's answer: CONFIRMED at both, or REVERSED there and COMPENSATED here. */
  lemma PaymentCanSettle(d: System, c: nat, id: Uuid, t: BankAModel.Transfer, payeeBank: BankId, payeeRef: string,
                         reply: HubModel.Reply, e: nat, refund: Uuid) returns (run: seq<Action>)
    requires Inv(d) && BankIdle(d) && HubIdle(d)
    requires C.Fresh(d.world, c, id) && C.Fresh(d.world, e, refund) && c != e && id != refund
    requires Unseen(d, id) && Unseen(d, refund) && Payable(d.world.db, t, payeeRef)
    requires payeeBank != BankAModel.BANK_ID && 1 <= |payeeBank| <= 64 && reply.id == id
    ensures Legal(d, run) && CarefulRun(d, run)
    ensures Inv(After(d, run)) && BankIdle(After(d, run)) && HubIdle(After(d, run))
    ensures var bank, hub := After(d, run).world.db, After(d, run).hub.db;
            && id in bank.transfers && bank.transfers[id] == t
            && id in bank.interbank && id in hub.settlements
            && hub.settlements[id].status == reply.answer
            && bank.interbank[id].status ==
               (if reply.answer == HubModel.CONFIRMED then BankAModel.CONFIRMED else BankAModel.COMPENSATED)
  {
    var first := PaymentIsBooked(d, c, id, t, payeeBank, payeeRef);
    RunKeepsInv(d, first);
    var rest := BookedCanSettle(After(d, first), id, t.amount, reply, e, refund);
    CarefulConcat(d, first, rest);
    run := first + rest;
  }

  // ----- from the empty deployment ------------------------------------------------------------

  /** Opening an account, statement by statement, and seeding it. */
  lemma FundingStatements(account: Uuid, amount: int, id: Uuid) returns (run: seq<T.Action>, db: BankAModel.BankDb)
    requires account != BankAModel.SUSPENSE && account != BankAModel.DEV_TREASURY && 0 < amount <= MAX_SAFE_INTEGER
    ensures T.Legal(T.START, run)
    ensures forall i :: 0 <= i < |run| ==> !run[i].Confirm? && (run[i].Start? ==> run[i].kind.Seed?)
    ensures db == BankAModel.Booked(
                    BankAModel.EMPTY_BANK.(accounts := BankAModel.EMPTY_BANK.accounts + {account}), id,
                    BankAModel.Transfer(BankAModel.DevSeedKey(id), BankAModel.DEV_TREASURY, account, amount))
    ensures T.After(T.START, run).db == db
    ensures var calls := T.After(T.START, run).calls;
            calls.Keys == {0} && calls[0].id == id && calls[0].phase.Done?
  {
    var open := T.OpenAccount(account);
    T.StartInv();
    T.StepKeepsInv(T.START, open);
    var ready := T.Do(T.START, open);
    var steps := C.SeedAlone(ready, 0, id, account, amount);
    C.OwnCallFrame(ready, steps, 0);
    C.LegalCons(T.START, open, steps);
    run := [open] + steps;
    db := T.After(ready, steps).db;
    forall i | 0 <= i < |run| ensures !run[i].Confirm? && (run[i].Start? ==> run[i].kind.Seed?) {
      assert i > 1 ==> run[i] == steps[1..][i - 2] && C.OwnStatement(steps[1..][i - 2], 0);
    }
  }

  lemma AccountCanBeFunded(account: Uuid, amount: int, id: Uuid) returns (run: seq<Action>)
    requires account != BankAModel.SUSPENSE && account != BankAModel.DEV_TREASURY && 0 < amount <= MAX_SAFE_INTEGER
    ensures Legal(START, run) && CarefulRun(START, run)
    ensures var later := After(START, run);
            && later == START.(world := later.world) && BankIdle(later) && account in later.world.db.accounts
            && BankAModel.SUSPENSE in later.world.db.accounts
            && BalanceOf(later.world.db.ledger, account) == amount
            && later.world.db.keys.Keys == {BankAModel.DevSeedKey(id)} && later.world.db.transfers.Keys == {id}
            && later.world.calls.Keys == {0} && later.world.calls[0].id == id
  {
    var steps, db := FundingStatements(account, amount, id);
    BankRunLifts(START, steps);
    run := AtBankAll(steps);
    AppendMovement([], id, BankAModel.DEV_TREASURY, account, amount, account, id);
    assert db.ledger == [] + Movement(id, BankAModel.DEV_TREASURY, account, amount);
  }

  /** So the runs that the theorems are about do reach settlements of either kind: from nothing,
      the first payment of any valid amount can be settled with either answer. */
  lemma FirstPaymentCanSettle(account: Uuid, amount: int, payeeBank: BankId, payeeRef: string,
                              answer: HubModel.Answer, reason: Option<string>) returns (run: seq<Action>, id: Uuid)
    requires account != BankAModel.SUSPENSE && account != BankAModel.DEV_TREASURY && 0 < amount <= MAX_SAFE_INTEGER
    requires payeeBank != BankAModel.BANK_ID && 1 <= |payeeBank| <= 64 && 1 <= |payeeRef| <= 255
    ensures Legal(START, run) && CarefulRun(START, run)
    ensures var bank, hub := After(START, run).world.db, After(START, run).hub.db;
            && id in bank.transfers && bank.transfers[id].payer == account && bank.transfers[id].amount == amount
            && id in bank.interbank && id in hub.settlements
            && hub.settlements[id].status == answer
            && bank.interbank[id].status ==
               (if answer == HubModel.CONFIRMED then BankAModel.CONFIRMED else BankAModel.COMPENSATED)
  {
    var first := AccountCanBeFunded(account, amount, 0);
    var funded := After(START, first);
    StartInv();
    RunKeepsInv(START, first);
    id := 1;
    var t := BankAModel.Transfer(BankAModel.PlainKey("key"), account, BankAModel.SUSPENSE, amount);
    var rest := PaymentCanSettle(funded, 1, id, t, payeeBank, payeeRef, HubModel.Reply(id, answer, reason), 2, 2);
    CarefulConcat(START, first, rest);
    run := first + rest;
  }
}
