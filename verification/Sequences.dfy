/** What several modules need to say about sequences. */
module Sequences {
  /** The last n of items. */
  function LastOf<T>(items: seq<T>, n: nat): seq<T> {
    if |items| <= n then items else items[|items| - n..]
  }

  /** How often x occurs. */
  function Times<T(==)>(items: seq<T>, x: T): nat {
    if items == [] then 0 else Times(items[..|items| - 1], x) + if items[|items| - 1] == x then 1 else 0
  }

  lemma TimesAppend<T>(items: seq<T>, last: T, x: T)
    ensures Times(items + [last], x) == Times(items, x) + if last == x then 1 else 0
  {
    assert (items + [last])[..|items + [last]| - 1] == items;
  }
}
