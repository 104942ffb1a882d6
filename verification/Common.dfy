/** Small vocabulary shared by the other modules. */
module Common {

  /** Go's nil-able pointers, channels and lookups. */
  datatype Option<+T> = None | Some(value: T)

  /** Some number outside a finite set: a thread id nobody uses yet. */
  lemma FreshNat(used: set<nat>) returns (n: nat)
    ensures n !in used
  {
    n := UpperBound(used);
  }

  lemma {:induction false} UpperBound(used: set<nat>) returns (n: nat)
    ensures forall k | k in used :: k < n
    decreases |used|
  {
    if used == {} {
      n := 0;
    } else {
      var x :| x in used;
      var m := UpperBound(used - {x});
      n := if m <= x then x + 1 else m;
      assert used == (used - {x}) + {x};
    }
  }
}
