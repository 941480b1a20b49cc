/** The places of a list at which something holds: all of them, in order. */
module Places {

  ghost predicate Marks(at: seq<nat>, n: nat, holds: nat -> bool) {
    (forall x, y :: 0 <= x < y < |at| ==> at[x] < at[y]) && (forall x :: 0 <= x < |at| ==> at[x] < n) &&
    forall i: nat :: i < n ==> (i in at <==> holds(i))
  }

  function Marked(at: seq<nat>, n: nat, here: bool): seq<nat> { if here then at + [n] else at }

  lemma OneMorePlace(at: seq<nat>, n: nat, holds: nat -> bool, holds': nat -> bool)
    requires Marks(at, n, holds) && forall i: nat :: i < n ==> holds(i) == holds'(i)
    ensures Marks(Marked(at, n, holds'(n)), n + 1, holds')
  {
    var more := Marked(at, n, holds'(n));
    forall i: nat | i < n + 1 ensures i in more <==> holds'(i) {
      if i < n { assert i in more <==> i in at; } else if i in at { assert false; }
    }
  }

  lemma SameMarks(at: seq<nat>, n: nat, holds: nat -> bool, holds': nat -> bool)
    requires Marks(at, n, holds) && forall i: nat :: i < n ==> holds(i) == holds'(i)
    ensures Marks(at, n, holds')
  {
  }
}
