/** What the protocols share: a lock, a truth value as a number, and a fact about products. */
module Basics {

  datatype Lock = Free | HeldBy(id: nat)

  function Bit(b: bool): nat { if b then 1 else 0 }

  lemma Product(x: nat, k: nat)
    ensures x * k >= 0 && (x > 0 ==> x * k >= k)
  {
    if x > 0 {
      var y := x - 1;
      assert y * k >= 0;
      assert x * k == y * k + k;
    }
  }
}
