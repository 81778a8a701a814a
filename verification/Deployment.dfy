/**
 Everything at once: Bank A's transactions statement by statement, an outbox relay with concurrent
 ticks on each side, the Hub with concurrent handlers, the transport and the reconciliation.
 Every run of it is a run of `Saga`, so what holds there holds here.
 */
module Deployment {
  import opened Prelude
  import opened Totals
  import opened Ledger
  import opened Outbox
  import BankAModel
  import HubModel
  import A = BankARuns
  import H = HubRuns
  import S = Saga
  import SagaTheorems
  import T = TransferConcurrency
  import R = Relay

  datatype System = System(
    world: T.World,
    bankRelay: R.Table,
    hub: H.Hub,
    hubRelay: R.Table,
    requests: multiset<HubModel.Request>,
    outcomes: multiset<A.Outcome>)

  /** `Transport` is a step of the network or of the reconciliation, as in `Saga`. */
  datatype Action =
    | AtBank(statement: T.Action)
    | BankRelay(tickAction: R.Action)
    | AtHub(hubAction: H.Action)
    | HubRelay(tickAction: R.Action)
    | Transport(step: S.Action)

  /** The saga state this is, but for the open handlers. */
  function Base(d: System): S.System {
    S.System(A.Bank(d.world.db, multiset{}), d.hub, d.requests, d.outcomes)
  }

  /** Neither the Hub nor the transport has seen the id. */
  predicate Unseen(d: System, id: Uuid) {
    id !in d.hub.db.settlements && forall r :: r in d.requests ==> r.id != id
  }

  predicate BankEnabled(d: System, b: T.Action) {
    && T.Enabled(d.world, b)
    && (b.Start? ==> Unseen(d, b.id) && (b.kind.Refund? ==> b.kind.outcome in d.outcomes))
    && (b.Confirm? ==> b.outcome in d.outcomes)
  }

  predicate Enabled(d: System, a: Action) {
    match a
    case AtBank(b) => BankEnabled(d, b)
    case BankRelay(r) => R.Enabled(d.bankRelay, r) && !r.Insert? && !r.Appear?
    case AtHub(h) => S.HubEnabled(Base(d), h) && !h.MarkPublished?
    case HubRelay(r) => R.Enabled(d.hubRelay, r) && !r.Insert? && !r.Appear?
    case Transport(t) =>
      && !t.AtBank? && !t.AtHub? && !t.SendRequest? && !t.SendOutcome? && S.Enabled(Base(d), t)
      && (t.ForeignRequest? ==> forall c :: c in d.world.calls ==> d.world.calls[c].id != t.request.id)
  }

  /** The row a relay tick publishes next. */
  function NextRow(table: R.Table, t: nat): nat
    requires R.Enabled(table, R.Publish(t))
  {
    table.ticks[t].claimed[table.ticks[t].sent]
  }

  function RequestsIn(outbox: seq<Row<HubModel.Request>>, row: nat): multiset<HubModel.Request> {
    if row < |outbox| then multiset{outbox[row].payload} else multiset{}
  }

  /** Of the Hub's messages, Bank A's queue receives the outcomes addressed to it. */
  predicate ForBankA(outbox: seq<Row<HubModel.Event>>, row: nat) {
    row < |outbox| && outbox[row].payload.Outcome? && outbox[row].payload.payerBank == BankAModel.BANK_ID
  }

  function OutcomesIn(outbox: seq<Row<HubModel.Event>>, row: nat): multiset<A.Outcome> {
    if ForBankA(outbox, row) then multiset{A.Outcome(outbox[row].aggregateId, outbox[row].payload.verdict)}
    else multiset{}
  }

  function AfterBankRelay(d: System, r: R.Action): System
    requires R.Enabled(d.bankRelay, r)
  {
    var relay := R.Do(d.bankRelay, r);
    var db := d.world.db;
    match r
    case Publish(t) => d.(bankRelay := relay, requests := d.requests + RequestsIn(db.outbox, NextRow(d.bankRelay, t)))
    case Commit(_) => d.(bankRelay := relay, world := d.world.(db := db.(published := relay.published)))
    case _ => d.(bankRelay := relay)
  }

  function AfterHubRelay(d: System, r: R.Action): System
    requires R.Enabled(d.hubRelay, r)
  {
    var relay := R.Do(d.hubRelay, r);
    var db := d.hub.db;
    match r
    case Publish(t) => d.(hubRelay := relay, outcomes := d.outcomes + OutcomesIn(db.outbox, NextRow(d.hubRelay, t)))
    case Commit(_) => d.(hubRelay := relay, hub := d.hub.(db := db.(published := relay.published)))
    case _ => d.(hubRelay := relay)
  }

  /** Rows committed to an outbox show up in its relay's table; a row's id is its commit position. */
  function Do(d: System, a: Action): System
    requires Enabled(d, a)
  {
    match a
    case AtBank(b) =>
      var world := T.Do(d.world, b);
      d.(world := world, bankRelay := d.bankRelay.(rows := |world.db.outbox|))
    case BankRelay(r) => AfterBankRelay(d, r)
    case AtHub(h) =>
      var hub := H.Do(d.hub, h);
      d.(hub := hub, hubRelay := d.hubRelay.(rows := |hub.db.outbox|))
    case HubRelay(r) => AfterHubRelay(d, r)
    case Transport(t) =>
      var after := S.Do(Base(d), t);
      d.(requests := after.requests, outcomes := after.outcomes)
  }

  predicate Legal(d: System, run: seq<Action>)
    decreases |run|
  {
    run == [] || (Enabled(d, run[0]) && Legal(Do(d, run[0]), run[1..]))
  }

  function After(d: System, run: seq<Action>): System
    requires Legal(d, run)
    decreases |run|
  {
    if run == [] then d else After(Do(d, run[0]), run[1..])
  }

  const START := System(T.START, R.START, H.START, R.START, multiset{}, multiset{})

  // ----- the assumptions, as in the saga ------------------------------------------------------

  predicate Careful(d: System, a: Action)
    requires Enabled(d, a)
  {
    && (a.Transport? && a.step.ReconcileAbsent? ==> S.StaysAbsent(Base(d), a.step.id))
    && (a.AtHub? ==> H.Consistent(d.hub, a.hubAction))
  }

  predicate CarefulRun(d: System, run: seq<Action>)
    requires Legal(d, run)
    decreases |run|
  {
    run == [] || (Careful(d, run[0]) && CarefulRun(Do(d, run[0]), run[1..]))
  }

  predicate SparesSuspense(a: Action) {
    a.AtBank? && a.statement.Start? ==> T.SparesSuspense(a.statement.kind, a.statement.transfer)
  }

  predicate RunSparesSuspense(run: seq<Action>) {
    forall i :: 0 <= i < |run| ==> SparesSuspense(run[i])
  }

  predicate SparesKeys(a: Action) {
    a.AtBank? && a.statement.Start? ==> T.SparesKeys(a.statement.kind, a.statement.transfer)
  }

  predicate RunSparesKeys(run: seq<Action>) {
    forall i :: 0 <= i < |run| ==> SparesKeys(run[i])
  }

  /** What they ask of a run's callers, in plain terms. */
  lemma AssumptionsMean(run: seq<Action>)
    ensures RunSparesKeys(run) <==>
            forall i :: 0 <= i < |run| && run[i].AtBank? && run[i].statement.Start?
                        && (run[i].statement.kind.Local? || run[i].statement.kind.Interbank?) ==>
              !run[i].statement.transfer.key.CompensationKey?
    ensures RunSparesSuspense(run) <==>
            forall i :: 0 <= i < |run| && run[i].AtBank? && run[i].statement.Start? ==>
              var kind, t := run[i].statement.kind, run[i].statement.transfer;
              && (kind.Local? ==> t.payer != BankAModel.SUSPENSE && t.payee != BankAModel.SUSPENSE)
              && (kind.Seed? ==> t.payee != BankAModel.SUSPENSE)
  {
    if RunSparesKeys(run) {
      assert forall i :: 0 <= i < |run| ==> SparesKeys(run[i]);
    }
    if RunSparesSuspense(run) {
      assert forall i :: 0 <= i < |run| ==> SparesSuspense(run[i]);
    }
  }

  // ----- the invariant ----------------------------------------------------------------------

  ghost predicate RelayOk(table: R.Table, rows: nat, published: set<nat>) {
    R.LocksOk(table) && table.rows == rows && table.published == published && table.hidden == {}
  }

  ghost predicate Inv(d: System) {
    && T.Inv(d.world)
    && RelayOk(d.bankRelay, |d.world.db.outbox|, d.world.db.published)
    && RelayOk(d.hubRelay, |d.hub.db.outbox|, d.hub.db.published)
    && (forall c :: c in d.world.calls && d.world.calls[c].id !in d.world.db.transfers ==>
          Unseen(d, d.world.calls[c].id))
  }

  lemma StartInv()
    ensures Inv(START)
  {
    T.StartInv();
  }

  lemma MoreRowsKeepLocks(table: R.Table, rows: nat)
    requires R.LocksOk(table) && table.rows <= rows && table.hidden == {}
    ensures R.LocksOk(table.(rows := rows))
  {
    var more := table.(rows := rows);
    forall t: nat, r: nat | R.Holds(more, t, r) ensures R.Holds(table, t, r) && r < rows && r !in more.published {
      assert R.Holds(table, t, r);
    }
  }

  lemma HeldRowExists(table: R.Table, t: nat)
    requires R.LocksOk(table) && R.Enabled(table, R.Publish(t))
    ensures NextRow(table, t) < table.rows && NextRow(table, t) !in table.published
  {
    assert R.Holds(table, t, NextRow(table, t));
  }

  lemma BankStepKeepsRelay(d: System, b: T.Action)
    requires Inv(d) && BankEnabled(d, b)
    ensures |d.world.db.outbox| <= |T.Do(d.world, b).db.outbox|
    ensures T.Do(d.world, b).db.published == d.world.db.published
    ensures RelayOk(Do(d, AtBank(b)).bankRelay, |T.Do(d.world, b).db.outbox|, T.Do(d.world, b).db.published)
  {
    MoreRowsKeepLocks(d.bankRelay, |T.Do(d.world, b).db.outbox|);
  }

  lemma HubStepKeepsRelay(d: System, h: H.Action)
    requires Inv(d) && Enabled(d, AtHub(h))
    ensures RelayOk(Do(d, AtHub(h)).hubRelay, |H.Do(d.hub, h).db.outbox|, H.Do(d.hub, h).db.published)
  {
    MoreRowsKeepLocks(d.hubRelay, |H.Do(d.hub, h).db.outbox|);
  }

  lemma PublishingKeepsWorld(w: T.World, published: set<nat>)
    requires T.Inv(w) && w.db.published <= published
    ensures T.Inv(w.(db := w.db.(published := published)))
  {
    var db' := w.db.(published := published);
    BankAModel.PublishingKeepsRowsOk(w.db, published);
    forall c | c in w.calls ensures T.CallOk(db', w.calls[c]) {
      assert T.CallOk(w.db, w.calls[c]);
      T.CallStays(w.db, db', w.calls[c]);
    }
  }

  lemma OutboxIdIsCommitted(db: BankAModel.BankDb, row: nat)
    requires BankAModel.RowsOk(db) && row < |db.outbox|
    ensures db.outbox[row].payload.id in db.transfers
  {
    var id := db.outbox[row].aggregateId;
    RowIsListed(db.outbox, row);
    assert BankAModel.RowOk(db, id);
  }

  lemma RelayKeepsUnseen(d: System, r: R.Action, id: Uuid)
    requires Inv(d) && R.Enabled(d.bankRelay, r) && Unseen(d, id) && id !in d.world.db.transfers
    ensures Unseen(AfterBankRelay(d, r), id)
  {
    if r.Publish? {
      HeldRowExists(d.bankRelay, r.tick);
      OutboxIdIsCommitted(d.world.db, NextRow(d.bankRelay, r.tick));
    }
  }

  lemma HubKeepsUnseen(d: System, h: H.Action, id: Uuid)
    requires Enabled(d, AtHub(h)) && Unseen(d, id)
    ensures Unseen(Do(d, AtHub(h)), id)
  {
  }

  lemma TransportKeepsUnseen(d: System, t: S.Action, id: Uuid)
    requires Enabled(d, Transport(t)) && Unseen(d, id) && (t.ForeignRequest? ==> t.request.id != id)
    ensures Unseen(Do(d, Transport(t)), id)
  {
  }

  lemma StepKeepsUnseen(d: System, a: Action, id: Uuid)
    requires Inv(d) && Enabled(d, a) && Unseen(d, id) && id !in d.world.db.transfers
    requires a.Transport? && a.step.ForeignRequest? ==> a.step.request.id != id
    ensures Unseen(Do(d, a), id)
  {
    match a
    case AtBank(_) =>
    case BankRelay(r) => RelayKeepsUnseen(d, r, id);
    case AtHub(h) => HubKeepsUnseen(d, h, id);
    case HubRelay(r) =>
    case Transport(t) => TransportKeepsUnseen(d, t, id);
  }

  /** A statement commits no id but its call's own, and starts no call with a known one. */
  lemma IdsOfCalls(w: T.World, b: T.Action, c: nat)
    requires T.Inv(w) && T.Enabled(w, b) && c in T.Do(w, b).calls
    ensures T.Do(w, b).calls[c].id !in T.Do(w, b).db.transfers ==>
              || (c in w.calls && T.Do(w, b).calls[c].id == w.calls[c].id && w.calls[c].id !in w.db.transfers)
              || (b.Start? && b.call == c && T.Do(w, b).calls[c].id == b.id && b.id !in w.db.transfers)
  {
  }

  lemma StepKeepsCallsUnseen(d: System, a: Action, c: nat)
    requires Inv(d) && Enabled(d, a) && c in Do(d, a).world.calls
    requires Do(d, a).world.calls[c].id !in Do(d, a).world.db.transfers
    ensures Unseen(Do(d, a), Do(d, a).world.calls[c].id)
  {
    if a.AtBank? {
      IdsOfCalls(d.world, a.statement, c);
    }
    StepKeepsUnseen(d, a, Do(d, a).world.calls[c].id);
  }

  lemma StepKeepsInv(d: System, a: Action)
    requires Inv(d) && Enabled(d, a)
    ensures Inv(Do(d, a))
  {
    match a {
      case AtBank(b) =>
        T.StepKeepsInv(d.world, b);
        BankStepKeepsRelay(d, b);
      case BankRelay(r) =>
        R.StepKeepsLocksOk(d.bankRelay, r);
        if r.Commit? {
          PublishingKeepsWorld(d.world, R.Do(d.bankRelay, r).published);
        }
      case AtHub(h) => HubStepKeepsRelay(d, h);
      case HubRelay(r) => R.StepKeepsLocksOk(d.hubRelay, r);
      case Transport(_) =>
    }
    forall c | c in Do(d, a).world.calls && Do(d, a).world.calls[c].id !in Do(d, a).world.db.transfers
      ensures Unseen(Do(d, a), Do(d, a).world.calls[c].id)
    {
      StepKeepsCallsUnseen(d, a, c);
    }
  }

  // ----- every run is a saga run --------------------------------------------------------------

  function BankMarks(rows: seq<nat>): seq<A.Action> {
    if rows == [] then [] else [A.MarkPublished(rows[0])] + BankMarks(rows[1..])
  }

  function HubMarks(rows: seq<nat>): seq<H.Action> {
    if rows == [] then [] else [H.MarkPublished(rows[0])] + HubMarks(rows[1..])
  }

  /** The saga steps that a step amounts to. */
  function Steps(d: System, a: Action): seq<S.Action>
    requires Enabled(d, a)
  {
    match a
    case AtBank(b) => S.AtBanks(T.BankSteps(d.world, b))
    case BankRelay(r) =>
      (match r
       case Publish(t) => [S.SendRequest(NextRow(d.bankRelay, t))]
       case Commit(t) => S.AtBanks(BankMarks(d.bankRelay.ticks[t].claimed))
       case _ => [])
    case AtHub(h) => [S.AtHub(h)]
    case HubRelay(r) =>
      (match r
       case Publish(t) =>
         if ForBankA(d.hub.db.outbox, NextRow(d.hubRelay, t)) then [S.SendOutcome(NextRow(d.hubRelay, t))] else []
       case Commit(t) => S.AtHubs(HubMarks(d.hubRelay.ticks[t].claimed))
       case _ => [])
    case Transport(t) => [t]
  }

  function SagaRun(d: System, run: seq<Action>): seq<S.Action>
    requires Legal(d, run)
    decreases |run|
  {
    if run == [] then [] else Steps(d, run[0]) + SagaRun(Do(d, run[0]), run[1..])
  }

  /** The saga state with the open refunds as handlers. */
  ghost predicate Views(d: System, s: S.System) {
    T.Refines(d.world, s.bank) && s == Base(d).(bank := s.bank)
  }

  lemma {:induction false} BankMarksRun(b: A.Bank, rows: seq<nat>)
    requires forall i :: 0 <= i < |rows| ==> rows[i] < |b.db.outbox|
    ensures A.Legal(b, BankMarks(rows))
    ensures A.After(b, BankMarks(rows)) == b.(db := b.db.(published := b.db.published + R.Ids(rows)))
    ensures forall i :: 0 <= i < |BankMarks(rows)| ==> BankMarks(rows)[i].MarkPublished?
    decreases |rows|
  {
    if rows == [] {
      assert b.db.published + R.Ids(rows) == b.db.published;
    } else {
      var next := A.Do(b, A.MarkPublished(rows[0]));
      BankMarksRun(next, rows[1..]);
      A.LegalCons(b, A.MarkPublished(rows[0]), BankMarks(rows[1..]));
      assert next.db.published + R.Ids(rows[1..]) == b.db.published + R.Ids(rows);
    }
  }

  lemma {:induction false} HubMarksRun(h: H.Hub, rows: seq<nat>)
    requires forall i :: 0 <= i < |rows| ==> rows[i] < |h.db.outbox|
    ensures H.Legal(h, HubMarks(rows)) && H.ConsistentRun(h, HubMarks(rows))
    ensures H.After(h, HubMarks(rows)) == h.(db := h.db.(published := h.db.published + R.Ids(rows)))
    ensures forall i :: 0 <= i < |HubMarks(rows)| ==> HubMarks(rows)[i].MarkPublished?
    decreases |rows|
  {
    if rows == [] {
      assert h.db.published + R.Ids(rows) == h.db.published;
    } else {
      var next := H.Do(h, H.MarkPublished(rows[0]));
      HubMarksRun(next, rows[1..]);
      H.ConsistentCons(h, H.MarkPublished(rows[0]), HubMarks(rows[1..]));
      assert next.db.published + R.Ids(rows[1..]) == h.db.published + R.Ids(rows);
    }
  }

  lemma ClaimedExist(table: R.Table, t: nat)
    requires R.LocksOk(table) && t in table.ticks
    ensures forall i :: 0 <= i < |table.ticks[t].claimed| ==> table.ticks[t].claimed[i] < table.rows
  {
    forall i | 0 <= i < |table.ticks[t].claimed| ensures table.ticks[t].claimed[i] < table.rows {
      assert R.Holds(table, t, table.ticks[t].claimed[i]);
    }
  }

  lemma OneSagaStep(s: S.System, a: S.Action)
    requires S.Enabled(s, a)
    ensures S.Legal(s, [a]) && S.After(s, [a]) == S.Do(s, a)
    ensures S.Careful(s, a) ==> S.CarefulRun(s, [a])
  {
    SagaTheorems.LegalCons(s, a, []);
    if S.Careful(s, a) {
      S.CarefulCons(s, a, []);
    }
  }

  lemma StatementsAreGrounded(d: System, s: S.System, b: T.Action)
    requires Inv(d) && BankEnabled(d, b) && Views(d, s)
    ensures forall i :: 0 <= i < |T.BankSteps(d.world, b)| ==> S.Grounded(s, T.BankSteps(d.world, b)[i])
  {
    if b.Commit? {
      assert T.CallOk(d.world.db, d.world.calls[b.call]);
    }
  }

  ghost predicate IsSagaRun(d: System, s: S.System, a: Action)
    requires Enabled(d, a)
  {
    var steps := Steps(d, a);
    && S.Legal(s, steps) && Views(Do(d, a), S.After(s, steps))
    && (Careful(d, a) ==> S.CarefulRun(s, steps))
  }

  lemma StatementIsSagaRun(d: System, s: S.System, b: T.Action)
    requires Inv(d) && BankEnabled(d, b) && Views(d, s)
    ensures IsSagaRun(d, s, AtBank(b))
  {
    StatementsAreGrounded(d, s, b);
    T.StepRefinesBank(d.world, s.bank, b);
    S.BankRunIsSystemRun(s, T.BankSteps(d.world, b));
  }

  lemma BankRelayIsSagaRun(d: System, s: S.System, r: R.Action)
    requires Inv(d) && Enabled(d, BankRelay(r)) && Views(d, s)
    ensures IsSagaRun(d, s, BankRelay(r))
  {
    match r
    case Publish(t) =>
      HeldRowExists(d.bankRelay, t);
      OneSagaStep(s, S.SendRequest(NextRow(d.bankRelay, t)));
    case Commit(t) =>
      ClaimedExist(d.bankRelay, t);
      BankMarksRun(s.bank, d.bankRelay.ticks[t].claimed);
      S.BankRunIsSystemRun(s, BankMarks(d.bankRelay.ticks[t].claimed));
    case _ =>
  }

  lemma HubRelayIsSagaRun(d: System, s: S.System, r: R.Action)
    requires Inv(d) && Enabled(d, HubRelay(r)) && Views(d, s)
    ensures IsSagaRun(d, s, HubRelay(r))
  {
    match r
    case Publish(t) =>
      HeldRowExists(d.hubRelay, t);
      if ForBankA(d.hub.db.outbox, NextRow(d.hubRelay, t)) {
        OneSagaStep(s, S.SendOutcome(NextRow(d.hubRelay, t)));
      }
    case Commit(t) =>
      ClaimedExist(d.hubRelay, t);
      HubMarksRun(s.hub, d.hubRelay.ticks[t].claimed);
      S.HubRunIsSystemRun(s, HubMarks(d.hubRelay.ticks[t].claimed));
    case _ =>
  }

  lemma HubStepIsSagaRun(d: System, s: S.System, h: H.Action)
    requires Enabled(d, AtHub(h)) && Views(d, s)
    ensures IsSagaRun(d, s, AtHub(h))
  {
    OneSagaStep(s, S.AtHub(h));
  }

  lemma TransportIsSagaRun(d: System, s: S.System, t: S.Action)
    requires Enabled(d, Transport(t)) && Views(d, s)
    ensures IsSagaRun(d, s, Transport(t))
  {
    OneSagaStep(s, t);
  }

  lemma StepIsSagaRun(d: System, s: S.System, a: Action)
    requires Inv(d) && Enabled(d, a) && Views(d, s)
    ensures IsSagaRun(d, s, a)
  {
    match a
    case AtBank(b) => StatementIsSagaRun(d, s, b);
    case BankRelay(r) => BankRelayIsSagaRun(d, s, r);
    case AtHub(h) => HubStepIsSagaRun(d, s, h);
    case HubRelay(r) => HubRelayIsSagaRun(d, s, r);
    case Transport(t) => TransportIsSagaRun(d, s, t);
  }

  /** Statements, ticks and handlers in any interleaving add up to a run of the saga with the same
      databases and the same messages, and a careful one to a careful one. */
  lemma {:induction false} EveryRunIsASagaRun(d: System, s: S.System, run: seq<Action>)
    requires Inv(d) && Legal(d, run) && Views(d, s)
    ensures Inv(After(d, run))
    ensures S.Legal(s, SagaRun(d, run)) && Views(After(d, run), S.After(s, SagaRun(d, run)))
    ensures CarefulRun(d, run) ==> S.CarefulRun(s, SagaRun(d, run))
    decreases |run|
  {
    if run != [] {
      var steps, d' := Steps(d, run[0]), Do(d, run[0]);
      StepIsSagaRun(d, s, run[0]);
      StepKeepsInv(d, run[0]);
      var rest := SagaRun(d', run[1..]);
      EveryRunIsASagaRun(d', S.After(s, steps), run[1..]);
      SagaTheorems.LegalConcat(s, steps, rest);
      if CarefulRun(d, run) {
        S.CarefulConcat(s, steps, rest);
      }
    }
  }

  // ----- what the saga guarantees, here -------------------------------------------------------

  lemma RunAgrees(run: seq<Action>, id: Uuid)
    requires Legal(START, run) && CarefulRun(START, run) && id in After(START, run).world.db.interbank
    ensures S.Agrees(Base(After(START, run)), id)
  {
    StartInv();
    EveryRunIsASagaRun(START, S.START, run);
    S.StartInv();
    S.RunKeepsInv(S.START, SagaRun(START, run));
    SameAgreement(After(START, run), S.After(S.START, SagaRun(START, run)), id);
  }

  lemma SameAgreement(d: System, s: S.System, id: Uuid)
    requires Views(d, s) && S.Inv(s) && id in s.bank.db.interbank
    ensures S.Agrees(Base(d), id)
  {
    assert S.Agrees(s, id);
  }

  /** The two databases never contradict each other, even statement by statement and with relays
      that fail anywhere. */
  lemma DatabasesAgreeAlways(run: seq<Action>, id: Uuid)
    requires Legal(START, run) && CarefulRun(START, run) && id in After(START, run).world.db.interbank
    ensures var d := After(START, run);
            var status := d.world.db.interbank[id].status;
            && (status == BankAModel.CONFIRMED ==>
                  id in d.hub.db.settlements && d.hub.db.settlements[id].status == HubModel.CONFIRMED)
            && (status == BankAModel.COMPENSATED ==>
                  if id !in d.hub.db.settlements then S.StaysAbsent(Base(d), id)
                  else
                    || d.hub.db.settlements[id].status == HubModel.REVERSED
                    || d.hub.db.settlements[id].status == HubModel.REJECTED)
  {
    RunAgrees(run, id);
  }

  // ----- steps that spare suspense or the compensation keys ----------------------------------

  lemma {:induction false} LiftedStepsAll(steps: seq<A.Action>, p: A.Action -> bool)
    requires forall i :: 0 <= i < |steps| ==> p(steps[i])
    ensures S.AllAtBank(S.AtBanks(steps), p)
    decreases |steps|
  {
    if steps != [] {
      assert forall i :: 0 <= i < |steps[1..]| ==> steps[1..][i] == steps[i + 1];
      LiftedStepsAll(steps[1..], p);
    }
  }

  lemma {:induction false} HubStepsAll(steps: seq<H.Action>, p: A.Action -> bool)
    ensures S.AllAtBank(S.AtHubs(steps), p)
    decreases |steps|
  {
    if steps != [] {
      HubStepsAll(steps[1..], p);
    }
  }

  lemma {:induction false} MarksAll(rows: seq<nat>, p: A.Action -> bool)
    requires forall row: nat :: p(A.MarkPublished(row))
    ensures forall i :: 0 <= i < |BankMarks(rows)| ==> p(BankMarks(rows)[i])
    decreases |rows|
  {
    if rows != [] {
      MarksAll(rows[1..], p);
    }
  }

  /** What holds of the statements' transactions and of publication marks holds of all of Bank
      A's saga steps. */
  lemma StepsAll(d: System, a: Action, p: A.Action -> bool)
    requires Enabled(d, a) && forall row: nat :: p(A.MarkPublished(row))
    requires a.AtBank? ==>
               forall i :: 0 <= i < |T.BankSteps(d.world, a.statement)| ==> p(T.BankSteps(d.world, a.statement)[i])
    ensures S.AllAtBank(Steps(d, a), p)
  {
    match a
    case AtBank(b) => LiftedStepsAll(T.BankSteps(d.world, b), p);
    case BankRelay(r) =>
      if r.Commit? {
        MarksAll(d.bankRelay.ticks[r.tick].claimed, p);
        LiftedStepsAll(BankMarks(d.bankRelay.ticks[r.tick].claimed), p);
      }
    case HubRelay(r) =>
      if r.Commit? {
        HubStepsAll(HubMarks(d.hubRelay.ticks[r.tick].claimed), p);
      }
    case _ =>
  }

  lemma {:induction false} RunLeavesSuspenseAlone(d: System, run: seq<Action>)
    requires Legal(d, run) && T.CallsSpareSuspense(d.world) && RunSparesSuspense(run)
    ensures S.SuspenseLeftAlone(SagaRun(d, run))
    decreases |run|
  {
    if run != [] {
      assert SparesSuspense(run[0]);
      if run[0].AtBank? { T.StepSparesSuspense(d.world, run[0].statement); }
      StepsAll(d, run[0], A.LeavesSuspenseAlone);
      assert forall i :: 0 <= i < |run[1..]| ==> run[1..][i] == run[i + 1];
      RunLeavesSuspenseAlone(Do(d, run[0]), run[1..]);
    }
  }

  lemma {:induction false} RunLeavesKeysAlone(d: System, run: seq<Action>)
    requires Legal(d, run) && T.CallsSpareKeys(d.world) && RunSparesKeys(run)
    ensures S.KeysSpared(SagaRun(d, run))
    decreases |run|
  {
    if run != [] {
      assert SparesKeys(run[0]);
      if run[0].AtBank? { T.StepSparesKeys(d.world, run[0].statement); }
      StepsAll(d, run[0], A.SparesKeys);
      assert forall i :: 0 <= i < |run[1..]| ==> run[1..][i] == run[i + 1];
      RunLeavesKeysAlone(Do(d, run[0]), run[1..]);
    }
  }

  // ----- refunds and money ------------------------------------------------------------------

  /** Nobody is overdrawn, and when clients spare the compensation keys refunds happen exactly
      once, statement by statement. */
  lemma RefundsHappenOnceAlways(run: seq<Action>, id: Uuid, account: Uuid)
    requires Legal(START, run) && CarefulRun(START, run) && id in After(START, run).world.db.interbank
    ensures var db := After(START, run).world.db;
            && (account != BankAModel.SUSPENSE && account != BankAModel.DEV_TREASURY ==>
                  0 <= BalanceOf(db.ledger, account))
            && (RunSparesKeys(run) ==>
                  && (db.interbank[id].status == BankAModel.COMPENSATED <==>
                        exists c :: BankAModel.IsRefundOf(db, c, id))
                  && (forall c, e :: BankAModel.IsRefundOf(db, c, id) && BankAModel.IsRefundOf(db, e, id) ==> c == e))
  {
    StartInv();
    EveryRunIsASagaRun(START, S.START, run);
    if RunSparesKeys(run) {
      RunLeavesKeysAlone(START, run);
    }
    SagaTheorems.BankBooksAreExact(SagaRun(START, run), id);
  }

  lemma SameAmounts(d: System, s: S.System)
    requires Views(d, s)
    ensures s.bank.db == Base(d).bank.db
    ensures SagaTheorems.HeldForBank(s) == SagaTheorems.HeldForBank(Base(d))
    ensures SagaTheorems.InTransitAmounts(s) == SagaTheorems.InTransitAmounts(Base(d))
  {
  }

  /** The two ledgers account for every cent between them, in the middle of any transaction, tick
      or handler and whatever accounts and keys callers name. */
  lemma LedgersConserveMoneyAlways(run: seq<Action>)
    requires Legal(START, run) && CarefulRun(START, run)
    ensures var s := Base(After(START, run));
            && BalanceOf(s.bank.db.ledger, BankAModel.SUSPENSE) - Total(SagaTheorems.HeldForBank(s)) ==
               Total(SagaTheorems.InTransitAmounts(s)) + SagaTheorems.StrandedAtBank(s) + SagaTheorems.OthersAtBank(s)
            && (RunSparesKeys(run) ==> SagaTheorems.StrandedAtBank(s) == 0)
            && (RunSparesKeys(run) && RunSparesSuspense(run) ==> SagaTheorems.OthersAtBank(s) == 0)
  {
    StartInv();
    EveryRunIsASagaRun(START, S.START, run);
    SagaTheorems.TwoLedgersConserveMoney(SagaRun(START, run));
    if RunSparesKeys(run) {
      RunLeavesKeysAlone(START, run);
      S.StartInv();
      S.CarefulSparedRunIsSound(S.START, SagaRun(START, run));
      if RunSparesSuspense(run) { RunLeavesSuspenseAlone(START, run); }
    }
    SameAmounts(After(START, run), S.After(S.START, SagaRun(START, run)));
  }
}
