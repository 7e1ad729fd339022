/**
 * The counter updates behind the optimistic like and follow toggles:
 * one more when switching on, one fewer when switching off, with or
 * without a floor at zero depending on the component.
 */
module Counters {

  /** `Math.max(n - 1, 0)`. */
  function ClampedDecrement(n: int): (r: int)
    ensures r >= 0
    ensures n >= 1 ==> r == n - 1
    ensures n < 1 ==> r == 0
  {
    if n - 1 > 0 then n - 1 else 0
  }

  /** The count after switching a flag that was `on`: down with a floor at zero, or up by one. */
  function Toggled(count: int, on: bool): (r: int)
    ensures on ==> r == ClampedDecrement(count)
    ensures !on ==> r == count + 1
    ensures count >= 0 ==> r >= 0
  {
    if on then ClampedDecrement(count) else count + 1
  }

  /**
   * Switching twice gives the count back exactly when the floor did not
   * bite: a flag that was on needs a count of at least one, a flag that was
   * off a count that is not negative.
   */
  lemma ToggledTwice(count: int, on: bool)
    ensures Toggled(Toggled(count, on), !on) == count <==> count >= if on then 1 else 0
  {
  }

  /** The count after switching a flag that was `on`, with no floor. */
  function Stepped(count: int, on: bool): (r: int)
    ensures r == count + (if on then -1 else 1)
  {
    if on then count - 1 else count + 1
  }

  /** Without the floor, switching twice always gives the count back, but an unlike at zero goes negative. */
  lemma SteppedTwice(count: int, on: bool)
    ensures Stepped(Stepped(count, on), !on) == count
    ensures on && count == 0 ==> Stepped(count, on) < 0
    ensures Stepped(count, on) != Toggled(count, on) <==> on && count < 1
  {
  }
}
