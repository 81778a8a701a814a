/** The append-only ledger all three services keep: balances are folds over its entries. */
module Ledger {
  import opened Prelude

  /** `ref` is the transfer or settlement the entry belongs to, `owner` the account or bank. */
  datatype Entry<O> = Entry(ref: Uuid, owner: O, amount: int)

  function BalanceOf<O(==)>(entries: seq<Entry<O>>, owner: O): int {
    if entries == [] then 0
    else
      var last := entries[|entries| - 1];
      BalanceOf(entries[..|entries| - 1], owner) + if last.owner == owner then last.amount else 0
  }

  /** The entries of one transfer or settlement, oldest first. */
  function EntriesFor<O>(entries: seq<Entry<O>>, ref: Uuid): seq<Entry<O>> {
    if entries == [] then []
    else
      var last := entries[|entries| - 1];
      EntriesFor(entries[..|entries| - 1], ref) + if last.ref == ref then [last] else []
  }

  function Sum<O>(entries: seq<Entry<O>>): int {
    if entries == [] then 0
    else Sum(entries[..|entries| - 1]) + entries[|entries| - 1].amount
  }

  /** A movement of `amount` from one owner to another; a negative amount moves it back. */
  function Movement<O>(ref: Uuid, from: O, to: O, amount: int): seq<Entry<O>> {
    [Entry(ref, from, -amount), Entry(ref, to, amount)]
  }

  lemma {:induction false} BalanceAppend<O>(a: seq<Entry<O>>, b: seq<Entry<O>>, owner: O)
    ensures BalanceOf(a + b, owner) == BalanceOf(a, owner) + BalanceOf(b, owner)
  {
    if b == [] {
      assert a + b == a;
    } else {
      assert (a + b)[..|a + b| - 1] == a + b[..|b| - 1];
      BalanceAppend(a, b[..|b| - 1], owner);
    }
  }

  lemma {:induction false} EntriesAppend<O>(a: seq<Entry<O>>, b: seq<Entry<O>>, ref: Uuid)
    ensures EntriesFor(a + b, ref) == EntriesFor(a, ref) + EntriesFor(b, ref)
  {
    if b == [] {
      assert a + b == a;
    } else {
      assert (a + b)[..|a + b| - 1] == a + b[..|b| - 1];
      EntriesAppend(a, b[..|b| - 1], ref);
    }
  }

  lemma {:induction false} SumAppend<O>(a: seq<Entry<O>>, b: seq<Entry<O>>)
    ensures Sum(a + b) == Sum(a) + Sum(b)
  {
    if b == [] {
      assert a + b == a;
    } else {
      assert (a + b)[..|a + b| - 1] == a + b[..|b| - 1];
      SumAppend(a, b[..|b| - 1]);
    }
  }

  /** What a two-entry movement does to the folds. */
  lemma MovementFolds<O>(ref: Uuid, from: O, to: O, amount: int, owner: O, other: Uuid)
    ensures var m := Movement(ref, from, to, amount);
            && Sum(m) == 0
            && EntriesFor(m, other) == (if other == ref then m else [])
            && BalanceOf(m, owner) == (if to == owner then amount else 0) - (if from == owner then amount else 0)
  {
    var m := Movement(ref, from, to, amount);
    var first, second := [m[0]], [m[1]];
    assert m == first + second;
    SumAppend(first, second);
    EntriesAppend(first, second, other);
    BalanceAppend(first, second, owner);
  }

  /** Appending a movement extends exactly its own entry group and moves only its two owners. */
  lemma AppendMovement<O>(entries: seq<Entry<O>>, ref: Uuid, from: O, to: O, amount: int, owner: O, other: Uuid)
    ensures var m := Movement(ref, from, to, amount);
            && EntriesFor(entries + m, other) == EntriesFor(entries, other) + (if other == ref then m else [])
            && BalanceOf(entries + m, owner) ==
               BalanceOf(entries, owner) + (if to == owner then amount else 0) - (if from == owner then amount else 0)
  {
    var m := Movement(ref, from, to, amount);
    MovementFolds(ref, from, to, amount, owner, other);
    EntriesAppend(entries, m, other);
    BalanceAppend(entries, m, owner);
  }

  lemma MovementKeepsZeroSum<O>(entries: seq<Entry<O>>, ref: Uuid, from: O, to: O, amount: int, other: Uuid)
    requires Sum(EntriesFor(entries, other)) == 0
    ensures Sum(EntriesFor(entries + Movement(ref, from, to, amount), other)) == 0
  {
    var m, group := Movement(ref, from, to, amount), EntriesFor(entries, other);
    MovementFolds(ref, from, to, amount, from, other);
    AppendMovement(entries, ref, from, to, amount, from, other);
    SumAppend(group, m);
    assert group + [] == group;
  }
}
