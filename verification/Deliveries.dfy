/** Deduplication of an at-least-once delivery sequence: the first valid message per id. */
module Deliveries {
  import opened Prelude

  function FirstValid<M>(id: M -> Uuid, valid: M -> bool, seen: set<Uuid>, messages: seq<M>): seq<M>
    decreases |messages|
  {
    if messages == [] then []
    else
      var m := messages[0];
      if valid(m) && id(m) !in seen then
        [m] + FirstValid(id, valid, seen + {id(m)}, messages[1..])
      else
        FirstValid(id, valid, seen, messages[1..])
  }

  /** The messages have pairwise different ids, none of them in `seen`. */
  predicate FreshIds<M>(id: M -> Uuid, seen: set<Uuid>, messages: seq<M>)
    decreases |messages|
  {
    messages == [] || (id(messages[0]) !in seen && FreshIds(id, seen + {id(messages[0])}, messages[1..]))
  }

  lemma {:induction false} FirstValidIsFresh<M>(id: M -> Uuid, valid: M -> bool, seen: set<Uuid>, messages: seq<M>)
    ensures FreshIds(id, seen, FirstValid(id, valid, seen, messages))
    ensures forall m :: m in FirstValid(id, valid, seen, messages) ==> valid(m) && m in messages
    decreases |messages|
  {
    if messages != [] {
      var m := messages[0];
      if valid(m) && id(m) !in seen {
        var rest := FirstValid(id, valid, seen + {id(m)}, messages[1..]);
        FirstValidIsFresh(id, valid, seen + {id(m)}, messages[1..]);
        assert ([m] + rest)[1..] == rest;
      } else {
        FirstValidIsFresh(id, valid, seen, messages[1..]);
      }
    }
  }
}
