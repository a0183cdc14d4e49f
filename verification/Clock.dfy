/** Tick-counter readings and the unsigned arithmetic done on them. */
module Clock {

  const U64: nat := 0x1_0000_0000_0000_0000

  /** A tick-counter reading in milliseconds, a uint64_t. */
  type Tick = t: nat | t < U64

  /** Whole seconds from `since` to `now`; the unsigned subtraction wraps. */
  function Seconds(now: Tick, since: Tick): (s: nat)
    ensures since <= now ==> s == (now - since) / 1000
  {
    ((now - since) % U64) / 1000
  }
}
