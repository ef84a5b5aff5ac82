/** Small things that several modules need: numbers, and what a status says. */
module Helpers {

  function Min(a: nat, b: nat): nat {
    if a <= b then a else b
  }

  lemma MulKeeps(a: nat, b: nat, x: nat)
    requires a <= b
    ensures a * x <= b * x
  {
    assert b * x == a * x + (b - a) * x;
  }

  /** For how long a "missing" is asked again, and the pauses in between, in milliseconds. */
  const CONFIRM_DEADLINE := 6000
  const CONFIRM_FIRST_PAUSE := 100
  const LONGEST_PAUSE := 1000

  /** The pause after the k-th look: doubled each time, up to a second. */
  function DoubledPause(first: nat, k: nat): (r: nat)
    ensures first <= LONGEST_PAUSE ==> first <= r <= LONGEST_PAUSE
  {
    if k == 0 then first else Min(2 * DoubledPause(first, k - 1), LONGEST_PAUSE)
  }

  /** When the k-th look is over, where `took(k)` is how long it takes. */
  function LookClock(first: nat, took: nat -> nat, k: nat): nat {
    took(k) + if k == 0 then 0 else LookClock(first, took, k - 1) + DoubledPause(first, k - 1)
  }

  lemma LooksBegin(first: nat, took: nat -> nat)
    ensures DoubledPause(first, 0) == first && LookClock(first, took, 0) == took(0)
  {
  }

  lemma LooksGoOn(first: nat, took: nat -> nat, k: nat)
    ensures DoubledPause(first, k + 1) == Min(2 * DoubledPause(first, k), LONGEST_PAUSE)
    ensures k > 0 ==> LookClock(first, took, k) == LookClock(first, took, k - 1) + DoubledPause(first, k - 1) + took(k)
  {
  }

  /** A 2xx. */
  predicate Good(status: nat) {
    200 <= status < 300
  }
}
