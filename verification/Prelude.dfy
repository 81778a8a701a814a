/** Identifiers, numeric limits and result types shared by the three services. */
module Prelude {

  /** A UUID as its 128-bit value: the order of canonical UUID text is the numeric order. */
  type Uuid = nat

  type BankId = string

  datatype Option<+T> = None | Some(value: T)

  datatype Result<+T, +E> = Ok(value: T) | Err(error: E)

  /** Money holds only safe integers; a BIGINT column holds 64-bit ones. */
  const MAX_SAFE_INTEGER: int := 9007199254740991
  const MAX_BIGINT: int := 9223372036854775807

  predicate IsSafeInteger(cents: int) {
    -MAX_SAFE_INTEGER <= cents <= MAX_SAFE_INTEGER
  }

  /** The cents of a `Money`. */
  type Cents = c: int | IsSafeInteger(c) witness 0

  function Min(a: int, b: int): int {
    if a <= b then a else b
  }

  /** There is always an id that has not been used. */
  lemma {:induction false} FreshId(used: set<Uuid>) returns (unused: Uuid)
    ensures forall id :: id in used ==> id < unused
  {
    if used == {} {
      unused := 0;
    } else {
      var id :| id in used;
      var above := FreshId(used - {id});
      unused := if id < above then above else id + 1;
      assert forall other :: other in used ==> other == id || other in used - {id};
    }
  }

  /** The first element of a concatenation is that of its first part. */
  lemma ConcatTail<T>(first: seq<T>, rest: seq<T>)
    requires first != []
    ensures first + rest == [first[0]] + (first[1..] + rest)
  {
  }
}
