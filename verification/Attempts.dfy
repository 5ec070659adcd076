/** What the attempt loops do to the children of their execution, in order. */
module Attempts {
  datatype Mark = Begun(attempt: nat) | Closed(attempt: nat)

  // The first `n` attempts, each begun and then closed.
  function Drained(n: nat): seq<Mark> {
    if n == 0 then [] else Drained(n - 1) + [Begun(n), Closed(n)]
  }

  // All of `n` attempts but perhaps the last are closed.
  predicate LastMayBeOpen(n: nat, marks: seq<Mark>) {
    marks == Drained(n) || (n > 0 && marks == Drained(n - 1) + [Begun(n)])
  }

  lemma DrainedNone()
    ensures Drained(0) == []
  {}

  lemma DrainedOneMore(n: nat)
    requires n > 0
    ensures Drained(n - 1) + [Begun(n)] + [Closed(n)] == Drained(n)
  {}
}
