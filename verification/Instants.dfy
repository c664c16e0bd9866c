/** Points in time and durations, with the two sentinels of the framework: an instant at infinity and
    the greatest duration, which stands for "no timeout at all". */
module Instants {
  /** The greatest duration in nanoseconds: u64::MAX seconds and 999'999'999 nanoseconds. */
  const DURATION_MAX: nat := 18446744073709551615999999999

  const U32_SIZE: nat := 0x1_0000_0000

  type Duration = d: nat | d <= DURATION_MAX

  /** Finite points in time. Two of them are never as far apart as DURATION_MAX. */
  type Ticks = t: nat | t < DURATION_MAX

  type U32 = n: nat | n < U32_SIZE

  datatype Instant = Finite(ticks: Ticks) | Infinity

  /** `u32::wrapping_add(1)`. */
  function WrappingIncrement(n: U32): U32 {
    (n + 1) % U32_SIZE
  }

  /** The finite sum must not overflow: the program panics there. */
  predicate AddFits(a: Instant, d: Duration) {
    d == DURATION_MAX || a.Infinity? || a.ticks + d < DURATION_MAX
  }

  function Add(a: Instant, d: Duration): Instant
    requires AddFits(a, d)
  {
    if d == DURATION_MAX then Infinity
    else match a
      case Finite(t) => Finite(t + d)
      case Infinity => Infinity
  }

  /** Infinity minus infinity makes the program panic. */
  function SaturatingSub(a: Instant, b: Instant): Duration
    requires a.Finite? || b.Finite?
  {
    match (a, b)
    case (Finite(s), Finite(t)) => if s < t then 0 else s - t
    case (Finite(_), Infinity) => 0
    case (Infinity, _) => DURATION_MAX
  }

  predicate Less(a: Instant, b: Instant) {
    match (a, b)
    case (Finite(s), Finite(t)) => s < t
    case (Finite(_), Infinity) => true
    case (Infinity, _) => false
  }

  predicate AtMost(a: Instant, b: Instant) {
    !Less(b, a)
  }

  /** Instants are totally ordered, in agreement with equality, and infinity is on top. */
  lemma InstantsTotallyOrdered(a: Instant, b: Instant, c: Instant)
    ensures !Less(a, a) && (Less(a, b) ==> !Less(b, a))
    ensures Less(a, b) && Less(b, c) ==> Less(a, c)
    ensures Less(a, b) || a == b || Less(b, a)
    ensures AtMost(a, Infinity) && (a.Finite? <==> Less(a, Infinity))
  {
  }

  /** Infinity stays infinity, is the greatest duration away from every finite instant, and every finite instant is
      no time after it; the greatest duration leads to it from everywhere; and a later instant is as far away as its
      ticks say. */
  lemma InfinityAbsorbs(a: Instant, b: Instant, d: Duration)
    requires a.Finite? && b.Finite?
    ensures AddFits(Infinity, d) && Add(Infinity, d) == Infinity
    ensures Add(a, DURATION_MAX) == Infinity
    ensures SaturatingSub(Infinity, a) == DURATION_MAX && SaturatingSub(a, Infinity) == 0
    ensures SaturatingSub(a, b) == if Less(a, b) then 0 else a.ticks - b.ticks
  {
  }

  /** Adding then subtracting gives the duration back, DURATION_MAX included; the other way round
      saturates at zero; and the sum of a longer duration is later. */
  lemma AddThenSub(a: Instant, d: Duration, e: Duration)
    requires a.Finite? && AddFits(a, d) && AddFits(a, e)
    ensures SaturatingSub(Add(a, d), a) == d
    ensures SaturatingSub(a, Add(a, d)) == 0
    ensures d < e <==> Less(Add(a, d), Add(a, e))
    ensures d == SaturatingSub(Add(a, e), a) <==> Add(a, d) == Add(a, e)
  {
  }
}
