# Frame limiter profiler, modelled in Dafny

This project models the frame limiter profiler of the Amethyst game engine
(`amethyst_core/src/frame_limiter_profiler.rs`). A frame-limiting loop calls
the profiler twice per frame. `mark_sleep_start` is called just before the loop
sleeps. It stores the previous frame's end instant and takes a clock reading
as the start of the sleep. `compute_and_store_frame_timings` is called on
waking. It takes a clock reading as the end of the sleep and derives five
values from the three instants and the frame budget: frame duration, frame
work, expected sleep, actual sleep and skew. It then appends them as one CSV
line to the profiler's output file. `new` and `set_frame_duration` set the
frame budget to one second divided by the target rate. `new` also writes the
header line.

Layout:

- `durations.dfy`, module `Durations`: the pieces of Rust's `std::time` the
  profiler uses. A `Duration` and an `Instant` are both whole nanoseconds
  (`nat`). The module covers `checked_sub`, `Instant - Instant`, `as_micros`
  and `Duration::from_secs(1) / fps`, each with a contract that says what it
  computes (floor, saturation, exact difference).
- `frame_limiter_profiler.dfy`, module `FrameLimiterProfiling`:
  - The class `FrameLimiterProfiler` has the source's three fields and its
    output file, modelled as the sequence of `Line`s written (`Header(text)` or
    `Data(Row)`). Each method states its new state. It also states that new
    state as `Step` applied to the old state (`Snapshot()`).
  - The pure functions `ExpectedSleep`, `SkewMicros` and `FrameTimings` do
    the per-frame arithmetic.
  - `Run` replays a sequence of calls. The lemmas about the protocol are
    stated over `Run`.

Clock readings (`Instant::now()`) are passed in as `now` parameters. The
constructor takes two of them, because `new` reads the clock twice for its
placeholder instants. A `Row` holds the whole-microsecond values that the
source formats (`as_micros()`, later divided by 1000 and printed as
milliseconds). Its skew is signed; see Findings.

Behaviour of the source that the model keeps:

- `Duration::from_secs(1) / fps` panics for a rate of 0, so `fps > 0` is a
  precondition of the constructor and of `SetFrameDuration`
  (amethyst_core/src/frame_limiter_profiler.rs:37, 49).
- A compute before any mark uses the placeholder instants read in `new`
  (amethyst_core/src/frame_limiter_profiler.rs:30-31).
- `Instant - Instant` saturates at zero, as Rust's `Instant::duration_since`
  does, so the model does not require the instants to be in order. Lemmas
  state the exact differences for instants that do not go back in time.
- The header line holds the text of `FILE_HEADER`
  (amethyst_core/src/frame_limiter_profiler.rs:14-15).

## Model

| member | source | states |
|---|---|---|
| `Durations.CheckedSub` | amethyst_core/src/frame_limiter_profiler.rs:63-66 | a value exists iff the subtrahend is at most the minuend, and then it adds back to the minuend |
| `Durations.Elapsed` | amethyst_core/src/frame_limiter_profiler.rs:62 | the span between two instants: the exact difference when they are in order, zero otherwise |
| `Durations.AsMicros` | amethyst_core/src/frame_limiter_profiler.rs:119-122 | the whole microseconds of a duration: the floor of nanoseconds over 1000 |
| `Durations.SecondDividedBy` | amethyst_core/src/frame_limiter_profiler.rs:37 | the frame budget for `fps > 0` is the largest whole number of nanoseconds that fits `fps` times into one second |
| `Durations.SecondDividedByIsFloor` | amethyst_core/src/frame_limiter_profiler.rs:48-50 | the floor characterisation determines the budget uniquely |
| `Durations.SecondDividedByAntitone` | amethyst_core/src/frame_limiter_profiler.rs:37 | a higher rate never gives a longer frame budget |
| `FrameLimiterProfiling.ExpectedSleep` | amethyst_core/src/frame_limiter_profiler.rs:63-66 | expected sleep saturates: budget minus work when the work fits, zero otherwise, and never more than the budget |
| `FrameLimiterProfiling.SkewMicros` | amethyst_core/src/frame_limiter_profiler.rs:68 | signed skew in microseconds: within one microsecond of actual minus expected sleep, non-negative when the actual sleep is at least the expected one, non-positive when it is at most |
| `FrameLimiterProfiling.SkewMicrosAsWritten` | amethyst_core/src/frame_limiter_profiler.rs:68 | the unsigned subtraction has a value iff the actual sleep's micros are at least the expected sleep's, and then it equals the signed skew |
| `FrameLimiterProfiling.SkewAsWrittenOverflowsOnEarlyWake` | amethyst_core/src/frame_limiter_profiler.rs:68 | the source's subtraction overflows exactly when the signed skew is negative |
| `FrameLimiterProfiling.SixtyFpsEarlyWakeExample` | amethyst_core/src/frame_limiter_profiler.rs:37-68 | at 60 fps with 5 ms of work and 11 ms of sleep, the budget is 16666666 ns, the expected sleep 11666666 ns, the source's skew overflows and the signed skew is -666 µs |
| `FrameLimiterProfiling.FrameTimings` | amethyst_core/src/frame_limiter_profiler.rs:59-73 | the row's columns: the budget in micros, the work and the actual sleep as the micros of the measured spans, expected sleep as the micros of the saturated budget left (so 0 once the work exceeds the budget) and not above the budget, skew equal to the actual-sleep column minus the expected-sleep column, budget at most work plus expected sleep (plus one truncated microsecond), skew within one microsecond of actual minus expected sleep |
| `FrameLimiterProfiling.RunAppendsOneRowPerCompute` | amethyst_core/src/frame_limiter_profiler.rs:59-73 | over any sequence of calls, each compute appends exactly one data line, nothing else writes, and earlier lines are never rewritten |
| `FrameLimiterProfiling.HeaderExactlyOnceThenRows` | amethyst_core/src/frame_limiter_profiler.rs:27-46 | from `new`, the file holds the header text once, as its first line, then one data line per timed frame |
| `FrameLimiterProfiling.RowsCarryCurrentFrameDuration` | amethyst_core/src/frame_limiter_profiler.rs:48-50 | until the rate changes again, every new data line carries the current frame budget and the budget itself is unchanged |
| `FrameLimiterProfiling.SetFrameDurationIdempotent` | amethyst_core/src/frame_limiter_profiler.rs:48-50 | setting the same rate twice in a row has the same effect as setting it once, whatever calls come before and after |
| `FrameLimiterProfiling.MarkSleepStartLastWins` | amethyst_core/src/frame_limiter_profiler.rs:54-57 | two marks in a row have the same effect as the second alone, whatever calls come before and after |
| `FrameLimiterProfiling.FrameRecordsMeasuredSpans` | amethyst_core/src/frame_limiter_profiler.rs:54-73 | a mark followed by a compute, with ordered readings, appends exactly the row (budget, work, saturated expected sleep, actual sleep, their micro difference) and leaves the budget and the two instants as marked |
| `FrameLimiterProfiling.FrameLimiterProfiler.constructor` | amethyst_core/src/frame_limiter_profiler.rs:27-46 | the budget is floor(1 s / fps), both instants are the placeholder readings, and the file holds only the header text |
| `FrameLimiterProfiling.FrameLimiterProfiler.SetFrameDuration` | amethyst_core/src/frame_limiter_profiler.rs:48-50 | the budget becomes floor(1 s / fps) and nothing else changes |
| `FrameLimiterProfiling.FrameLimiterProfiler.MarkSleepStart` | amethyst_core/src/frame_limiter_profiler.rs:54-57 | the previous frame end and the sleep start are overwritten, and nothing else changes |
| `FrameLimiterProfiling.FrameLimiterProfiler.ComputeAndStoreFrameTimings` | amethyst_core/src/frame_limiter_profiler.rs:59-73 | exactly one data line is appended (the row of the stored instants and the new reading), and the budget and instants are unchanged; the branch for a negative expected sleep is proved dead |
| `FrameLimiterProfiling.FrameLimiterProfiler.WriteHeader` | amethyst_core/src/frame_limiter_profiler.rs:102-106 | the header line, with the source's header text, is appended to the file |
| `FrameLimiterProfiling.FrameLimiterProfiler.WriteFrameTimings` | amethyst_core/src/frame_limiter_profiler.rs:108-127 | one data line is appended, with the five values in the header's column order, durations as whole microseconds |

## Left out

- Output file preparation (executable name, working directory, directory creation, file name with the OS name, file creation) is left out. It is filesystem and process introspection. The output file is the sequence of lines written.
- The byte-level `LineWriter` writes and the panics of their `unwrap` calls are left out. This is I/O; each write is modelled as an append that succeeds.
- The `info!` logging calls are left out. They are logging only.
- The conversion of microseconds to `f64` milliseconds and its rendering at two or three decimals are left out. This is floating-point formatting; the model keeps each column in whole microseconds.
- FrameLimiterProfiling.FrameLimiterProfiler.ComputeAndStoreFrameTimings, FrameLimiterProfiling.Step and FrameLimiterProfiling.FrameTimings write the signed skew (`SkewMicros`) in place of the unsigned subtraction at amethyst_core/src/frame_limiter_profiler.rs:68. On a wake more than a whole microsecond early, the source panics before writing (debug builds) or writes a wrapped value near 2^128 (release builds). Both of these model a compute that always appends exactly one line. The as-written subtraction is `SkewMicrosAsWritten` (see Findings).
- The real monotonic clock is left out. Its readings are parameters, and the protocol lemmas assume readings that do not go back in time.
- `Duration` division is modelled only for one second over a `u32` rate, the only division the profiler performs. `Duration`'s `u64` seconds range is not modelled; no realistic frame timing reaches it.

## Findings

| source | as written | input that shows it | evidently intended | confidence | as-written member | corrected member |
|---|---|---|---|---|---|---|
| amethyst_core/src/frame_limiter_profiler.rs:68 | the skew subtracts two unsigned 128-bit microsecond counts. It overflows whenever the limiter wakes earlier than the expected sleep by at least one whole microsecond. Debug builds panic; release builds wrap to a huge positive value | 60 fps, 5 ms of work, 11 ms of actual sleep: expected sleep 11666 µs, actual 11000 µs (`SixtyFpsEarlyWakeExample`) | a signed skew, -666 µs here, negative for an early wake | high, not executed | `FrameLimiterProfiling.SkewMicrosAsWritten` | `FrameLimiterProfiling.SkewMicros` |
