// `Math.random()` as an explicit input. A stream gives the value of the k-th
// call; callers thread a counter through every consumer so that the order in
// which the source draws random numbers is kept.
module Rand {

  type Stream = nat -> real

  /** Every draw lies in [0, 1), as `Math.random()` promises. */
  ghost predicate Unit(rng: Stream) {
    forall k: nat :: 0.0 <= rng(k) < 1.0
  }

  /** `r * n` for a draw `r`, written as `n` additions of `r` so that the proofs
      that use it stay within linear arithmetic (`ScaleIsProduct` shows it is the product). */
  function Scale(r: real, n: nat): (p: real)
    requires 0.0 <= r < 1.0
    ensures 0.0 <= p && (n > 0 ==> p < n as real)
    decreases n
  {
    if n == 0 then 0.0 else Scale(r, n - 1) + r
  }

  lemma {:induction false} ScaleIsProduct(r: real, n: nat)
    requires 0.0 <= r < 1.0
    ensures Scale(r, n) == r * (n as real)
    decreases n
  {
    if n > 0 {
      ScaleIsProduct(r, n - 1);
    }
  }

  /** `Math.floor(Math.random() * n)`: an index into a collection of size `n`. */
  function Index(r: real, n: nat): (k: nat)
    requires 0.0 <= r < 1.0 && n > 0
    ensures k < n
  {
    Scale(r, n).Floor
  }

  /** `Math.floor(Math.random() * 6) + 1`: one die of `rollDice`. */
  function Die(r: real): (d: int)
    requires 0.0 <= r < 1.0
    ensures 1 <= d <= 6
  {
    Index(r, 6) + 1
  }
}
