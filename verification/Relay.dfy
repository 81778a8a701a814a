/**
 The outbox relay: one tick claims a batch of unpublished rows, publishes each, marks each and
 commits. Publishing is not undone by a rollback, so delivery is at least once.
 */
module Relay {
  import opened Prelude
  import opened Outbox

  const BATCH_SIZE: nat := 100

  /** The ids below `rows` that are not taken, in increasing order. */
  function Untaken(rows: nat, taken: set<nat>): seq<nat> {
    if rows == 0 then []
    else Untaken(rows - 1, taken) + if rows - 1 in taken then [] else [rows - 1]
  }

  /** A claim: the oldest rows nobody has published or holds, at most a batch of them. */
  function Batch(rows: nat, taken: set<nat>): seq<nat> {
    var all := Untaken(rows, taken);
    all[..Min(BATCH_SIZE, |all|)]
  }

  lemma {:induction false} UntakenOrdered(rows: nat, taken: set<nat>)
    ensures forall r: nat :: r in Untaken(rows, taken) <==> r < rows && r !in taken
    ensures Increasing(Untaken(rows, taken))
  {
    if rows != 0 {
      UntakenOrdered(rows - 1, taken);
      var init, last := Untaken(rows - 1, taken), if rows - 1 in taken then [] else [rows - 1];
      forall r: nat ensures r in init + last <==> r < rows && r !in taken {
        assert r in init + last <==> r in init || r in last;
        assert r in init <==> r < rows - 1 && r !in taken;
      }
      assert forall i :: 0 <= i < |init| ==> init[i] in init;
    }
  }

  predicate Increasing(ids: seq<nat>) {
    forall i, j :: 0 <= i < j < |ids| ==> ids[i] < ids[j]
  }

  predicate TakesPrefix(rows: nat, taken: set<nat>, n: nat, more: set<nat>)
    requires n <= |Untaken(rows, taken)|
  {
    forall r: nat :: r < rows ==> (r in more <==> r in taken || r in Untaken(rows, taken)[..n])
  }

  lemma PrefixOfInit(rows: nat, taken: set<nat>, n: nat, more: set<nat>)
    requires 0 < rows && n <= |Untaken(rows, taken)| && TakesPrefix(rows, taken, n, more)
    ensures var init := Untaken(rows - 1, taken);
            if n <= |init| then TakesPrefix(rows - 1, taken, n, more) && (rows - 1 in more <==> rows - 1 in taken)
            else TakesPrefix(rows - 1, taken, |init|, more) && rows - 1 in more && n == |init| + 1
  {
    var init, all := Untaken(rows - 1, taken), Untaken(rows, taken);
    UntakenOrdered(rows - 1, taken);
    if n <= |init| {
      assert all[..n] == init[..n];
      assert forall r :: r in init[..n] ==> r in init;
    } else {
      assert all[..n] == init + [rows - 1];
      assert init[..|init|] == init;
    }
  }

  /** Taking a prefix of the untaken ids leaves the rest of them. */
  lemma {:induction false} TakeMore(rows: nat, taken: set<nat>, n: nat, more: set<nat>)
    requires n <= |Untaken(rows, taken)| && TakesPrefix(rows, taken, n, more)
    ensures Untaken(rows, more) == Untaken(rows, taken)[n..]
  {
    if rows != 0 {
      PrefixOfInit(rows, taken, n, more);
      TakeMore(rows - 1, taken, Min(n, |Untaken(rows - 1, taken)|), more);
    }
  }

  lemma TakePrefix(rows: nat, taken: set<nat>, n: nat)
    requires n <= |Untaken(rows, taken)|
    ensures Untaken(rows, taken + Ids(Untaken(rows, taken)[..n])) == Untaken(rows, taken)[n..]
  {
    TakeMore(rows, taken, n, taken + Ids(Untaken(rows, taken)[..n]));
  }

  function Ids(claimed: seq<nat>): set<nat> {
    set r | r in claimed
  }

  // ----- concurrent ticks -------------------------------------------------------------------

  /** An open transaction: the rows it locked and how many of them it has published. */
  datatype Tick = Tick(claimed: seq<nat>, sent: nat)

  /** An insert draws its row id at once and the row shows up when it commits, so ids can appear
      out of order, or never; `hidden` are those not yet to be seen. `sends` is the history of
      published row ids, `failures` the rows of each rolled-back tick. */
  datatype Table = Table(
    rows: nat,
    hidden: set<nat>,
    published: set<nat>,
    ticks: map<nat, Tick>,
    sends: seq<nat>,
    failures: seq<set<nat>>)

  datatype Action =
    | Insert
    | Appear(row: nat)
    | Claim(tick: nat)
    | Publish(tick: nat)
    | Commit(tick: nat)
    | Rollback(tick: nat)

  function Locked(ticks: map<nat, Tick>): set<nat> {
    set t, r | t in ticks && r in ticks[t].claimed :: r
  }

  /** What a claim passes over. */
  function Unavailable(s: Table): set<nat> {
    s.published + s.hidden + Locked(s.ticks)
  }

  predicate Enabled(s: Table, a: Action) {
    match a
    case Insert => true
    case Appear(row) => row in s.hidden
    case Claim(t) => t !in s.ticks
    case Publish(t) => t in s.ticks && s.ticks[t].sent < |s.ticks[t].claimed|
    case Commit(t) => t in s.ticks && s.ticks[t].sent == |s.ticks[t].claimed|
    case Rollback(t) => t in s.ticks
  }

  function Do(s: Table, a: Action): Table
    requires Enabled(s, a)
  {
    match a
    case Insert => s.(rows := s.rows + 1, hidden := s.hidden + {s.rows})
    case Appear(row) => s.(hidden := s.hidden - {row})
    case Claim(t) => s.(ticks := s.ticks[t := Tick(Batch(s.rows, Unavailable(s)), 0)])
    case Publish(t) =>
      var tick := s.ticks[t];
      s.(sends := s.sends + [tick.claimed[tick.sent]], ticks := s.ticks[t := tick.(sent := tick.sent + 1)])
    case Commit(t) => s.(published := s.published + Ids(s.ticks[t].claimed), ticks := s.ticks - {t})
    case Rollback(t) => s.(failures := s.failures + [Ids(s.ticks[t].claimed)], ticks := s.ticks - {t})
  }

  predicate Legal(s: Table, run: seq<Action>)
    decreases |run|
  {
    run == [] || (Enabled(s, run[0]) && Legal(Do(s, run[0]), run[1..]))
  }

  function After(s: Table, run: seq<Action>): Table
    requires Legal(s, run)
    decreases |run|
  {
    if run == [] then s else After(Do(s, run[0]), run[1..])
  }

  const START := Table(0, {}, {}, map[], [], [])

  /** How many rolled-back ticks had claimed the row. */
  function FailuresOf(failures: seq<set<nat>>, row: nat): nat {
    if failures == [] then 0
    else FailuresOf(failures[..|failures| - 1], row) + if row in failures[|failures| - 1] then 1 else 0
  }

  predicate SentByOpenTick(s: Table, row: nat) {
    exists t :: t in s.ticks && s.ticks[t].sent <= |s.ticks[t].claimed| && row in s.ticks[t].claimed[..s.ticks[t].sent]
  }

  predicate Holds(s: Table, t: nat, r: nat) {
    t in s.ticks && r in s.ticks[t].claimed
  }

  /** Open ticks hold disjoint sets of visible, unpublished rows, in increasing order. */
  ghost predicate LocksOk(s: Table) {
    && (forall t :: t in s.ticks ==> s.ticks[t].sent <= |s.ticks[t].claimed| && Increasing(s.ticks[t].claimed))
    && (forall t: nat, r: nat :: Holds(s, t, r) ==> r < s.rows && r !in s.published && r !in s.hidden)
    && (forall t: nat, u: nat, r: nat :: Holds(s, t, r) && Holds(s, u, r) ==> t == u)
  }

  ghost predicate SentOk(s: Table) {
    && (forall t :: t in s.ticks ==> s.ticks[t].sent <= |s.ticks[t].claimed|)
    && (forall t, r :: t in s.ticks && r in s.ticks[t].claimed[..s.ticks[t].sent] ==> r in s.sends)
    && (forall r :: r in s.published ==> r in s.sends)
  }

  ghost predicate SendsBounded(s: Table, row: nat) {
    multiset(s.sends)[row] <=
    FailuresOf(s.failures, row) + if row in s.published || SentByOpenTick(s, row) then 1 else 0
  }

  lemma ClaimKeepsLocksOk(s: Table, t: nat)
    requires LocksOk(s) && Enabled(s, Claim(t))
    ensures LocksOk(Do(s, Claim(t)))
  {
    var s', taken := Do(s, Claim(t)), Unavailable(s);
    UntakenOrdered(s.rows, taken);
    var all, batch := Untaken(s.rows, taken), s'.ticks[t].claimed;
    forall r | r in batch ensures r < s.rows && r !in taken {
      assert r in all;
    }
    forall u: nat, r: nat | u != t && Holds(s', u, r) ensures Holds(s, u, r) && r in taken {
      assert s'.ticks[u] == s.ticks[u];
      assert r in Locked(s.ticks);
    }
  }

  lemma StepKeepsLocksOk(s: Table, a: Action)
    requires LocksOk(s) && Enabled(s, a)
    ensures LocksOk(Do(s, a))
  {
    if a.Claim? {
      ClaimKeepsLocksOk(s, a.tick);
    } else {
      var s' := Do(s, a);
      forall t: nat, r: nat | Holds(s', t, r)
        ensures Holds(s, t, r) && r < s'.rows && r !in s'.published && r !in s'.hidden
      {
        assert Holds(s, t, r);
        if a.Commit? && r in s.ticks[a.tick].claimed {
          assert t == a.tick by { assert Holds(s, a.tick, r); }
        }
      }
    }
  }

  lemma StepKeepsSentOk(s: Table, a: Action)
    requires SentOk(s) && Enabled(s, a)
    ensures SentOk(Do(s, a))
  {
    if a.Publish? {
      var tick := s.ticks[a.tick];
      assert tick.claimed[..tick.sent + 1] == tick.claimed[..tick.sent] + [tick.claimed[tick.sent]];
    } else if a.Commit? {
      var tick := s.ticks[a.tick];
      assert tick.claimed[..tick.sent] == tick.claimed;
    }
  }

  lemma PublishKeepsSendsBounded(s: Table, t: nat, row: nat)
    requires LocksOk(s) && Enabled(s, Publish(t)) && SendsBounded(s, row)
    ensures SendsBounded(Do(s, Publish(t)), row)
  {
    var s', tick := Do(s, Publish(t)), s.ticks[t];
    assert s'.ticks[t].claimed[..tick.sent + 1] == tick.claimed[..tick.sent] + [tick.claimed[tick.sent]];
    if row == tick.claimed[tick.sent] {
      NextRowIsUnsent(s, t);
      assert SentByOpenTick(s', row);
    } else {
      OtherTicksStay(s, s', t, row);
    }
  }

  lemma CommitKeepsSendsBounded(s: Table, t: nat, row: nat)
    requires Enabled(s, Commit(t)) && SendsBounded(s, row)
    ensures SendsBounded(Do(s, Commit(t)), row)
  {
    OtherTicksStay(s, Do(s, Commit(t)), t, row);
    assert s.ticks[t].claimed[..s.ticks[t].sent] == s.ticks[t].claimed;
  }

  lemma RollbackKeepsSendsBounded(s: Table, t: nat, row: nat)
    requires Enabled(s, Rollback(t)) && SendsBounded(s, row)
    ensures SendsBounded(Do(s, Rollback(t)), row)
  {
    var s' := Do(s, Rollback(t));
    OtherTicksStay(s, s', t, row);
    assert s'.failures[..|s'.failures| - 1] == s.failures;
  }

  lemma StepKeepsSendsBounded(s: Table, a: Action, row: nat)
    requires LocksOk(s) && Enabled(s, a) && SendsBounded(s, row)
    ensures SendsBounded(Do(s, a), row)
  {
    match a
    case Insert => assert SentByOpenTick(s, row) ==> SentByOpenTick(Do(s, a), row);
    case Appear(_) => assert SentByOpenTick(s, row) ==> SentByOpenTick(Do(s, a), row);
    case Claim(t) => OtherTicksStay(s, Do(s, a), t, row);
    case Publish(t) => PublishKeepsSendsBounded(s, t, row);
    case Commit(t) => CommitKeepsSendsBounded(s, t, row);
    case Rollback(t) => RollbackKeepsSendsBounded(s, t, row);
  }

  /** What a tick sends next is visible, and neither published nor sent by any open tick. */
  lemma NextRowIsUnsent(s: Table, t: nat)
    requires LocksOk(s) && t in s.ticks && s.ticks[t].sent < |s.ticks[t].claimed|
    ensures Enabled(s, Publish(t))
    ensures var row := s.ticks[t].claimed[s.ticks[t].sent];
            row < s.rows && row !in s.published && row !in s.hidden && !SentByOpenTick(s, row)
  {
    var tick := s.ticks[t];
    var row := tick.claimed[tick.sent];
    assert Holds(s, t, row);
    assert row !in tick.claimed[..tick.sent];
    forall u | u in s.ticks && s.ticks[u].sent <= |s.ticks[u].claimed|
      ensures row !in s.ticks[u].claimed[..s.ticks[u].sent]
    {
      assert u != t ==> !Holds(s, u, row);
    }
  }

  lemma OtherTicksStay(s: Table, s': Table, t: nat, row: nat)
    requires forall u :: u in s.ticks && u != t ==> u in s'.ticks && s'.ticks[u] == s.ticks[u]
    ensures SentByOpenTick(s, row) ==>
              SentByOpenTick(s', row) || (t in s.ticks && s.ticks[t].sent <= |s.ticks[t].claimed|
                                          && row in s.ticks[t].claimed[..s.ticks[t].sent])
  {
    if SentByOpenTick(s, row) {
      var u :| u in s.ticks && s.ticks[u].sent <= |s.ticks[u].claimed| && row in s.ticks[u].claimed[..s.ticks[u].sent];
      assert u != t ==> s'.ticks[u] == s.ticks[u];
    }
  }

  lemma {:induction false} RunKeepsTicks(s: Table, run: seq<Action>, row: nat)
    requires LocksOk(s) && SentOk(s) && SendsBounded(s, row) && Legal(s, run)
    ensures var s' := After(s, run); LocksOk(s') && SentOk(s') && SendsBounded(s', row)
    decreases |run|
  {
    if run != [] {
      StepKeepsLocksOk(s, run[0]);
      StepKeepsSentOk(s, run[0]);
      StepKeepsSendsBounded(s, run[0], row);
      RunKeepsTicks(Do(s, run[0]), run[1..], row);
    }
  }

  lemma {:induction false} FailuresCounted(failures: seq<set<nat>>, row: nat)
    ensures FailuresOf(failures, row) == |set i | 0 <= i < |failures| && row in failures[i]|
  {
    if failures != [] {
      var last := |failures| - 1;
      FailuresCounted(failures[..last], row);
      var before := set i | 0 <= i < last && row in failures[..last][i];
      assert (set i | 0 <= i < |failures| && row in failures[i]) ==
             before + if row in failures[last] then {last} else {};
    }
  }

  /** Over any interleaving of ticks that fail anywhere: no two open ticks hold the same row, a
      row marked published was sent and will not be sent again, and a row is sent at most once
      plus once per rolled-back tick that had claimed it. */
  lemma AtLeastOnceWithBound(run: seq<Action>, row: nat)
    requires Legal(START, run)
    ensures var s := After(START, run);
            && (row in s.published ==> row in s.sends)
            && multiset(s.sends)[row] <= 1 + |set i | 0 <= i < |s.failures| && row in s.failures[i]|
            && (forall t, u :: t in s.ticks && u in s.ticks && t != u ==>
                  Ids(s.ticks[t].claimed) !! Ids(s.ticks[u].claimed))
            && (forall t :: t in s.ticks ==> Ids(s.ticks[t].claimed) !! s.published)
  {
    RunKeepsTicks(START, run, row);
    var s := After(START, run);
    FailuresCounted(s.failures, row);
    forall t, r | t in s.ticks && r in s.ticks[t].claimed
      ensures Holds(s, t, r)
    {
    }
  }

  // ----- successive ticks -------------------------------------------------------------------

  /** The marks left by k successful ticks, one after the other. */
  function Marks(rows: nat, published: set<nat>, k: nat): set<nat>
    decreases k
  {
    if k == 0 then published else Marks(rows, published + Ids(Batch(rows, published)), k - 1)
  }

  /** The rows those ticks publish, in order. */
  function Sends(rows: nat, published: set<nat>, k: nat): seq<nat>
    decreases k
  {
    if k == 0 then []
    else Batch(rows, published) + Sends(rows, published + Ids(Batch(rows, published)), k - 1)
  }

  lemma OneTick(rows: nat, published: set<nat>, all: seq<nat>)
    requires all == Untaken(rows, published)
    ensures Batch(rows, published) == all[..Min(BATCH_SIZE, |all|)]
    ensures Untaken(rows, published + Ids(Batch(rows, published))) == all[Min(BATCH_SIZE, |all|)..]
  {
    TakePrefix(rows, published, Min(BATCH_SIZE, |all|));
  }

  /** How many of n rows k ticks get through. */
  function Drained(n: nat, k: nat): (d: nat)
    ensures d <= n
  {
    Min(BATCH_SIZE * k, n)
  }

  lemma DrainedStep(n: nat, k: nat)
    requires 0 < k
    ensures Drained(n, k) == Min(BATCH_SIZE, n) + Drained(n - Min(BATCH_SIZE, n), k - 1)
  {
  }

  /** k ticks send the next 100k unpublished rows in increasing id order and leave the rest. */
  lemma {:induction false} TicksDrain(rows: nat, published: set<nat>, k: nat, all: seq<nat>)
    requires all == Untaken(rows, published)
    ensures Sends(rows, published, k) == all[..Drained(|all|, k)]
    ensures Untaken(rows, Marks(rows, published, k)) == all[Drained(|all|, k)..]
    decreases k
  {
    if k != 0 {
      var first := Min(BATCH_SIZE, |all|);
      var rest, next := all[first..], published + Ids(Batch(rows, published));
      OneTick(rows, published, all);
      TicksDrain(rows, next, k - 1, rest);
      DrainedStep(|all|, k);
      SliceTwice(all, first, Drained(|rest|, k - 1));
    }
  }

  lemma SliceTwice(all: seq<nat>, first: nat, later: nat)
    requires first + later <= |all|
    ensures all[..first] + all[first..][..later] == all[..first + later]
    ensures all[first..][later..] == all[first + later..]
  {
  }

  /** With n rows neither published nor hidden, k ticks leave max(0, n - 100k) of them, have sent the others in
      increasing id order, and the next tick finds nothing exactly when ceil(n / 100) have run. */
  lemma DrainBound(rows: nat, taken: set<nat>, k: nat)
    ensures var n, marks, sends := |Untaken(rows, taken)|, Marks(rows, taken, k), Sends(rows, taken, k);
            && |Untaken(rows, marks)| == (if n <= 100 * k then 0 else n - 100 * k)
            && Increasing(sends) && |sends| == n - |Untaken(rows, marks)|
            && (Batch(rows, marks) == [] <==> (n + 99) / 100 <= k)
  {
    TicksDrain(rows, taken, k, Untaken(rows, taken));
    UntakenOrdered(rows, taken);
  }

  // ----- the service ------------------------------------------------------------------------

  function Payloads<E>(rows: seq<Row<E>>, ids: seq<nat>): seq<E>
    requires forall i :: 0 <= i < |ids| ==> ids[i] < |rows|
  {
    seq(|ids|, i requires 0 <= i < |ids| => rows[ids[i]].payload)
  }

  lemma OneMore<E>(rows: seq<Row<E>>, ids: seq<nat>, i: nat)
    requires i < |ids| && forall j :: 0 <= j < |ids| ==> ids[j] < |rows|
    ensures Payloads(rows, ids[..i + 1]) == Payloads(rows, ids[..i]) + [rows[ids[i]].payload]
    ensures Ids(ids[..i + 1]) == Ids(ids[..i]) + {ids[i]}
  {
    assert ids[..i + 1] == ids[..i] + [ids[i]];
  }

  lemma BatchExists(rows: nat, taken: set<nat>)
    ensures forall i :: 0 <= i < |Batch(rows, taken)| ==> Batch(rows, taken)[i] < rows
  {
    UntakenOrdered(rows, taken);
    var all := Untaken(rows, taken);
    assert forall i :: 0 <= i < |all| ==> all[i] in all;
  }

  class OutboxRelay<E> {
    var rows: seq<Row<E>>
    var published: set<nat>
    /** Everything handed to the publisher so far. */
    var wire: seq<E>

    constructor (rows: seq<Row<E>>, published: set<nat>)
      ensures this.rows == rows && this.published == published && wire == []
    {
      this.rows, this.published, wire := rows, published, [];
    }

    method ClaimUnpublished(limit: nat) returns (events: seq<nat>)
      ensures events == Untaken(|rows|, published)[..Min(limit, |Untaken(|rows|, published)|)]
    {
      var all := Untaken(|rows|, published);
      events := all[..Min(limit, |all|)];
    }

    method MarkPublished(id: nat)
      modifies `published
      ensures published == old(published) + {id}
    {
      published := published + {id};
    }

    /** `failAfter` is how many rows are published before the tick fails, if it fails: a failing
        publish or mark, or, after the last row, a failing commit. */
    method Tick(failAfter: Option<nat>) returns (result: Result<nat, ()>)
      modifies `published, `wire
      ensures forall i :: 0 <= i < |old(Batch(|rows|, published))| ==> old(Batch(|rows|, published))[i] < |rows|
      ensures var batch := old(Batch(|rows|, published));
              && wire == old(wire) + Payloads(rows, batch[..Reached(batch, failAfter)])
              && result == (if Fails(batch, failAfter) then Err(()) else Ok(|batch|))
              && published == (if Fails(batch, failAfter) then old(published) else old(published) + Ids(batch))
    {
      var before := published;
      var events := ClaimUnpublished(BATCH_SIZE);
      BatchExists(|rows|, published);
      assert events == Batch(|rows|, published);
      assert forall i :: 0 <= i < |events| ==> events[i] < |rows|;
      ghost var start := wire;
      var count := 0;
      while count < |events| && failAfter != Some(count)
        invariant count <= Reached(events, failAfter)
        invariant wire == start + Payloads(rows, events[..count])
        invariant published == before + Ids(events[..count])
      {
        OneMore(rows, events, count);
        wire := wire + [rows[events[count]].payload];
        MarkPublished(events[count]);
        count := count + 1;
      }
      if failAfter == Some(count) {
        published := before;
        return Err(());
      }
      assert events[..|events|] == events;
      return Ok(count);
    }
  }

  predicate Fails(batch: seq<nat>, failAfter: Option<nat>) {
    failAfter.Some? && failAfter.value <= |batch|
  }

  /** How many rows of the batch are published. */
  function Reached(batch: seq<nat>, failAfter: Option<nat>): (n: nat)
    ensures n <= |batch|
  {
    if Fails(batch, failAfter) then failAfter.value else |batch|
  }

  // ----- a tick as a run of the machine -----------------------------------------------------

  function Publishes(t: nat, n: nat): seq<Action> {
    if n == 0 then [] else [Publish(t)] + Publishes(t, n - 1)
  }

  /** Claim, publish that many rows, then commit or roll back. */
  function TickRun(t: nat, n: nat, fails: bool): seq<Action> {
    [Claim(t)] + (Publishes(t, n) + [if fails then Rollback(t) else Commit(t)])
  }

  lemma LegalCons(s: Table, a: Action, rest: seq<Action>)
    requires Enabled(s, a) && Legal(Do(s, a), rest)
    ensures Legal(s, [a] + rest) && After(s, [a] + rest) == After(Do(s, a), rest)
  {
    assert ([a] + rest)[1..] == rest;
  }

  /** An open tick after publishing n more of its rows. */
  function Publishing(s: Table, t: nat, n: nat): Table
    requires t in s.ticks && s.ticks[t].sent + n <= |s.ticks[t].claimed|
  {
    var tick := s.ticks[t];
    s.(sends := s.sends + tick.claimed[tick.sent..tick.sent + n], ticks := s.ticks[t := tick.(sent := tick.sent + n)])
  }

  lemma {:induction false} PublishesRun(s: Table, t: nat, n: nat, last: Action)
    requires t in s.ticks && s.ticks[t].sent + n <= |s.ticks[t].claimed|
    requires Enabled(Publishing(s, t, n), last)
    ensures Legal(s, Publishes(t, n) + [last])
    ensures After(s, Publishes(t, n) + [last]) == Do(Publishing(s, t, n), last)
    decreases n
  {
    var tick := s.ticks[t];
    if n == 0 {
      assert tick.claimed[tick.sent..tick.sent] == [];
      assert s.ticks[t := tick] == s.ticks && Publishing(s, t, 0) == s;
      LegalCons(s, last, []);
      assert Publishes(t, 0) + [last] == [last] + [];
    } else {
      var next := Do(s, Publish(t));
      PublishOneMore(s, t, n);
      PublishesRun(next, t, n - 1, last);
      LegalCons(s, Publish(t), Publishes(t, n - 1) + [last]);
      assert Publishes(t, n) + [last] == [Publish(t)] + (Publishes(t, n - 1) + [last]);
    }
  }

  lemma PublishOneMore(s: Table, t: nat, n: nat)
    requires t in s.ticks && s.ticks[t].sent + n <= |s.ticks[t].claimed| && 0 < n
    ensures Enabled(s, Publish(t)) && Publishing(Do(s, Publish(t)), t, n - 1) == Publishing(s, t, n)
  {
    var tick := s.ticks[t];
    var from, to := tick.sent, tick.sent + n;
    assert [tick.claimed[from]] + tick.claimed[from + 1..to] == tick.claimed[from..to];
  }

  /** What `OutboxRelay.Tick` does to the wire and to the marks, failure included, is a run of
      the machine, here beside any other open ticks; alone it claims the same batch. */
  lemma TickIsARun(s: Table, t: nat, failAfter: Option<nat>) returns (run: seq<Action>)
    requires t !in s.ticks
    ensures var batch := Batch(s.rows, Unavailable(s));
            && run == TickRun(t, Reached(batch, failAfter), Fails(batch, failAfter))
            && Legal(s, run)
            && After(s, run) == s.(
                 sends := s.sends + batch[..Reached(batch, failAfter)],
                 published := if Fails(batch, failAfter) then s.published else s.published + Ids(batch),
                 failures := if Fails(batch, failAfter) then s.failures + [Ids(batch)] else s.failures)
            && (s.ticks == map[] && s.hidden == {} ==> batch == Batch(s.rows, s.published))
  {
    var batch := Batch(s.rows, Unavailable(s));
    var n, fails := Reached(batch, failAfter), Fails(batch, failAfter);
    var claimed, last := Do(s, Claim(t)), if fails then Rollback(t) else Commit(t);
    run := TickRun(t, n, fails);
    PublishesRun(claimed, t, n, last);
    LegalCons(s, Claim(t), Publishes(t, n) + [last]);
    assert Publishing(claimed, t, n).ticks - {t} == s.ticks;
    assert batch[0..n] == batch[..n];
    assert s.ticks == map[] && s.hidden == {} ==> Unavailable(s) == s.published;
  }

  /** A row that is inserted and shows up while nothing else waits is what the next tick sends and
      marks, once. */
  lemma InsertedRowIsSent(s: Table, t: nat) returns (run: seq<Action>)
    requires s.ticks == map[] && (forall row: nat :: row < s.rows ==> row in s.published || row in s.hidden)
    requires s.rows !in s.published && s.rows !in s.hidden
    ensures run == [Insert, Appear(s.rows)] + TickRun(t, 1, false)
    ensures Legal(s, run)
    ensures After(s, run) == s.(rows := s.rows + 1, published := s.published + {s.rows}, sends := s.sends + [s.rows])
  {
    var shown := Do(Do(s, Insert), Appear(s.rows));
    assert shown == s.(rows := s.rows + 1);
    assert Locked(shown.ticks) == {};
    NothingUntaken(s.rows, Unavailable(shown));
    assert Batch(shown.rows, Unavailable(shown)) == [s.rows];
    var tick := TickIsARun(shown, t, None);
    LegalCons(Do(s, Insert), Appear(s.rows), tick);
    LegalCons(s, Insert, [Appear(s.rows)] + tick);
    run := [Insert] + ([Appear(s.rows)] + tick);
  }

  lemma {:induction false} NothingUntaken(rows: nat, taken: set<nat>)
    requires forall row: nat :: row < rows ==> row in taken
    ensures Untaken(rows, taken) == []
  {
    if rows != 0 {
      NothingUntaken(rows - 1, taken);
    }
  }
}
