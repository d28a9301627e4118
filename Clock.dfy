/**
 * The controller's clocks, micros() and millis(), return a 32-bit
 * `unsigned long` (src/main.cpp:48-49, 121, 201). Elapsed times are the
 * source's unsigned subtractions, which wrap around modulo 2^32.
 */
module Clock {

  const WRAP: int := 0x1_0000_0000

  /** An `unsigned long` on the 32-bit controller. */
  type U32 = x: int | 0 <= x < 0x1_0000_0000

  /** `now - since` in `unsigned long` arithmetic. */
  function Elapsed(now: U32, since: U32): (d: U32)
    ensures since <= now ==> d == now - since
    ensures now < since ==> d == WRAP + now - since
  {
    (now - since) % WRAP
  }

  /** The clock reading `d` ticks after `t`, wrapping around. */
  function Advance(t: U32, d: nat): (r: U32)
    ensures t + d < WRAP ==> r == t + d
  {
    (t + d) % WRAP
  }

  /** Elapsed undoes Advance for any delay shorter than one wrap period. */
  lemma ElapsedAdvance(t: U32, d: nat)
    requires d < WRAP
    ensures Elapsed(Advance(t, d), t) == d
  {
    if t + d >= WRAP {
      assert Advance(t, d) == t + d - WRAP;
    }
  }
}
