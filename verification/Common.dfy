/** Small shared definitions. */
module Common {

  datatype Option<+T> = None | Some(value: T)

  /** Some number is larger than all of finitely many. */
  lemma {:induction false} UnusedNumber(taken: set<nat>) returns (x: nat)
    ensures x !in taken && forall y :: y in taken ==> y < x
    decreases |taken|
  {
    if taken == {} {
      x := 0;
    } else {
      var y :| y in taken;
      var rest := UnusedNumber(taken - {y});
      x := if rest <= y then y + 1 else rest;
      forall z | z in taken ensures z < x {
        assert z == y || z in taken - {y};
      }
    }
  }

  /** What holds at `i` and is kept by every step up to `k` holds at `k`. */
  lemma {:induction false} Upward(holds: nat -> bool, i: nat, k: nat)
    requires i <= k && holds(i)
    requires forall j: nat :: i <= j < k && holds(j) ==> holds(j + 1)
    ensures holds(k)
    decreases k
  {
    if i < k {
      Upward(holds, i, k - 1);
      assert holds(k - 1 + 1);
    }
  }
}
