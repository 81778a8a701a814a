/** The outbox table: its rows in the order they were committed. */
module Outbox {
  import opened Prelude

  datatype Row<E> = Row(aggregateId: Uuid, payload: E)

  /** The rows written for one aggregate, oldest first. */
  function RowsFor<E>(rows: seq<Row<E>>, id: Uuid): seq<Row<E>> {
    if rows == [] then []
    else
      var last := rows[|rows| - 1];
      RowsFor(rows[..|rows| - 1], id) + if last.aggregateId == id then [last] else []
  }

  lemma RowsPush<E>(rows: seq<Row<E>>, row: Row<E>, id: Uuid)
    ensures RowsFor(rows + [row], id) == RowsFor(rows, id) + if row.aggregateId == id then [row] else []
  {
    assert (rows + [row])[..|rows|] == rows;
  }

  lemma {:induction false} RowIsListed<E>(rows: seq<Row<E>>, i: nat)
    requires i < |rows|
    ensures rows[i] in RowsFor(rows, rows[i].aggregateId)
  {
    if i < |rows| - 1 {
      RowIsListed(rows[..|rows| - 1], i);
    }
  }
}
