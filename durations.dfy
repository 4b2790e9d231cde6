/** The parts of Rust's `std::time` that the frame limiter profiler relies on.
    A `Duration` and an `Instant` are both counted in whole nanoseconds; an
    `Instant` is a reading of the monotonic clock, a `Duration` a span. */
module Durations {

  type Nanos = nat
  type Instant = nat

  /** Rust's `u32`, the type of the frames-per-second argument. */
  type U32 = x: nat | x < 0x1_0000_0000

  const NanosPerSecond: nat := 1_000_000_000
  const NanosPerMicro: nat := 1_000

  /** `Duration::from_millis(0)`. */
  const ZeroDuration: Nanos := 0

  datatype Option<T> = None | Some(value: T) {
    function GetOr(default: T): T {
      match this
      case Some(v) => v
      case None => default
    }
  }

  /** `Duration::checked_sub`: no value when the difference would be negative. */
  function CheckedSub(a: Nanos, b: Nanos): (r: Option<Nanos>)
    ensures r.Some? <==> b <= a
    ensures r.Some? ==> b + r.value == a
  {
    if b <= a then Some(a - b) else None
  }

  /** `later - earlier` on two `Instant`s (`Instant::duration_since`), which
      saturates to zero when `earlier` is in fact the later one. */
  function Elapsed(later: Instant, earlier: Instant): (r: Nanos)
    ensures earlier <= later ==> earlier + r == later
    ensures later <= earlier ==> r == 0
  {
    CheckedSub(later, earlier).GetOr(ZeroDuration)
  }

  /** `Duration::as_micros`: the whole microseconds, the rest dropped. */
  function AsMicros(d: Nanos): (r: nat)
    ensures r * NanosPerMicro <= d < (r + 1) * NanosPerMicro
  {
    d / NanosPerMicro
  }

  /** `Duration::from_secs(1) / fps`. Dividing a `Duration` by zero panics. */
  function SecondDividedBy(fps: U32): (r: Nanos)
    requires fps > 0
    ensures r * fps <= NanosPerSecond < (r + 1) * fps
  {
    NanosPerSecond / fps
  }

  /** Truncation to microseconds keeps the order of durations. */
  lemma AsMicrosMonotone(a: Nanos, b: Nanos)
    requires a <= b
    ensures AsMicros(a) <= AsMicros(b)
  {
  }

  /** The frame duration is the floor of one second over the rate: any
      whole number of nanoseconds that fits `fps` times into a second, and
      whose successor does not, is the one `SecondDividedBy` gives. */
  lemma SecondDividedByIsFloor(fps: U32, q: nat)
    requires fps > 0
    requires q * fps <= NanosPerSecond < (q + 1) * fps
    ensures q == SecondDividedBy(fps)
  {
  }

  /** A higher rate never gives a longer frame. */
  lemma SecondDividedByAntitone(slow: U32, fast: U32)
    requires 0 < slow <= fast
    ensures SecondDividedBy(fast) <= SecondDividedBy(slow)
  {
  }
}
