/** The last element of a sequence and what precedes it. */
module Sequences {

  function Front<T>(xs: seq<T>): seq<T>
    requires xs != []
  {
    xs[..|xs| - 1]
  }

  function Last<T>(xs: seq<T>): T
    requires xs != []
  {
    xs[|xs| - 1]
  }

  lemma Snoc<T>(xs: seq<T>, x: T)
    ensures Front(xs + [x]) == xs && Last(xs + [x]) == x
  {
  }
}
