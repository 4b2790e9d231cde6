/** The frame limiter profiler: a recorder that a frame-limiting loop calls
    twice per frame, once when it starts sleeping and once when it wakes, and
    that appends one CSV line of timings per frame to its output file.

    The output file is modelled by the sequence of lines written to it; the
    clock by the `now` readings passed in. Durations are whole nanoseconds. */
module FrameLimiterProfiling {
  import opened Durations

  /** The first line of every output file. */
  const FileHeader: string :=
    "frame_duration_ms,frame_work_ms,expected_sleep_ms,actual_sleep_ms,skew_ms"

  /** One data line, in column order, as the whole microseconds that get
      formatted (divided by 1000 and printed as milliseconds). */
  datatype Row = Row(
    frameDuration: nat,
    frameWork: nat,
    expectedSleep: nat,
    actualSleep: nat,
    skew: int)

  /** A line of the output file: the header text, or one frame's row. */
  datatype Line = Header(text: string) | Data(row: Row)

  /** How long the limiter should sleep after `frameWork` of work to end
      the frame exactly on its budget; zero once the work alone is over it. */
  function ExpectedSleep(frameDuration: Nanos, frameWork: Nanos): (r: Nanos)
    ensures r <= frameDuration
    ensures frameWork <= frameDuration ==> frameWork + r == frameDuration
    ensures frameDuration <= frameWork ==> r == 0
  {
    CheckedSub(frameDuration, frameWork).GetOr(ZeroDuration)
  }

  /** Skew in whole microseconds: actual sleep minus expected sleep, each
      truncated to microseconds first, as a signed number. */
  function SkewMicros(actualSleep: Nanos, expectedSleep: Nanos): (r: int)
    ensures -(NanosPerMicro as int) < r * NanosPerMicro - (actualSleep - expectedSleep) < NanosPerMicro
    ensures expectedSleep <= actualSleep ==> 0 <= r
    ensures actualSleep <= expectedSleep ==> r <= 0
  {
    AsMicros(actualSleep) - AsMicros(expectedSleep)
  }

  /** The skew as the source computes it: a subtraction of two unsigned
      microsecond counts, which overflows (no value) when the actual sleep
      is shorter, in whole microseconds, than the expected one. */
  function SkewMicrosAsWritten(actualSleep: Nanos, expectedSleep: Nanos): (r: Option<nat>)
    ensures r.Some? <==> AsMicros(expectedSleep) <= AsMicros(actualSleep)
    ensures r.Some? ==> r.value == SkewMicros(actualSleep, expectedSleep)
  {
    CheckedSub(AsMicros(actualSleep), AsMicros(expectedSleep))
  }

  /** The row for one frame, from the frame budget and the three clock
      readings that bracket its work and its sleep. */
  function FrameTimings(frameDuration: Nanos, previousFrameEnd: Instant,
                        sleepStart: Instant, sleepEnd: Instant): (r: Row)
    ensures r.frameDuration == AsMicros(frameDuration)
    ensures r.expectedSleep <= r.frameDuration
    ensures previousFrameEnd <= sleepStart ==> r.frameWork == AsMicros(sleepStart - previousFrameEnd)
    ensures sleepStart <= sleepEnd ==> r.actualSleep == AsMicros(sleepEnd - sleepStart)
    ensures r.frameDuration <= r.frameWork + r.expectedSleep + 1
    ensures previousFrameEnd <= sleepStart ==>
      r.expectedSleep == AsMicros(if sleepStart - previousFrameEnd <= frameDuration
                                  then frameDuration - (sleepStart - previousFrameEnd) else 0)
    ensures r.skew == r.actualSleep - r.expectedSleep
    ensures -(NanosPerMicro as int) < r.skew * NanosPerMicro
              - (Elapsed(sleepEnd, sleepStart) - ExpectedSleep(frameDuration, Elapsed(sleepStart, previousFrameEnd)))
              < NanosPerMicro
  {
    var frameWork := Elapsed(sleepStart, previousFrameEnd);
    var expectedSleep := ExpectedSleep(frameDuration, frameWork);
    var actualSleep := Elapsed(sleepEnd, sleepStart);
    AsMicrosMonotone(expectedSleep, frameDuration);
    Row(AsMicros(frameDuration), AsMicros(frameWork), AsMicros(expectedSleep),
        AsMicros(actualSleep), SkewMicros(actualSleep, expectedSleep))
  }

  /** The profiler's state, as a value. */
  datatype State = State(
    frameDuration: Nanos,
    previousFrameEnd: Instant,
    sleepStart: Instant,
    lines: seq<Line>)

  /** The public calls a frame limiter makes, with the clock readings they take. */
  datatype Call =
    | SetFrameDuration(fps: U32)
    | MarkSleepStart(previousFrameEnd: Instant, now: Instant)
    | ComputeAndStoreFrameTimings(now: Instant)

  /** A call that does not panic: a rate of zero divides by zero. */
  predicate Allowed(c: Call) {
    c.SetFrameDuration? ==> c.fps > 0
  }

  predicate AllAllowed(calls: seq<Call>) {
    forall i :: 0 <= i < |calls| ==> Allowed(calls[i])
  }

  /** The state `new` builds from the two clock readings it takes. */
  function Initial(fps: U32, now0: Instant, now1: Instant): State
    requires fps > 0
  {
    State(SecondDividedBy(fps), now0, now1, [Header(FileHeader)])
  }

  /** The effect of one call. */
  function Step(s: State, c: Call): State
    requires Allowed(c)
  {
    match c
    case SetFrameDuration(fps) => s.(frameDuration := SecondDividedBy(fps))
    case MarkSleepStart(p, now) => s.(previousFrameEnd := p, sleepStart := now)
    case ComputeAndStoreFrameTimings(now) =>
      s.(lines := s.lines + [Data(FrameTimings(s.frameDuration, s.previousFrameEnd, s.sleepStart, now))])
  }

  /** The effect of a sequence of calls, in order. */
  function Run(s: State, calls: seq<Call>): State
    requires AllAllowed(calls)
    decreases |calls|
  {
    if calls == [] then s else Run(Step(s, calls[0]), calls[1..])
  }

  function CountComputes(calls: seq<Call>): nat
    decreases |calls|
  {
    if calls == [] then 0
    else (if calls[0].ComputeAndStoreFrameTimings? then 1 else 0) + CountComputes(calls[1..])
  }

  predicate NoRateChange(calls: seq<Call>) {
    forall i :: 0 <= i < |calls| ==> !calls[i].SetFrameDuration?
  }

  /** Running two sequences of calls one after the other is running their
      concatenation. */
  lemma {:induction false} RunConcat(s: State, a: seq<Call>, b: seq<Call>)
    requires AllAllowed(a) && AllAllowed(b)
    ensures AllAllowed(a + b)
    ensures Run(s, a + b) == Run(Run(s, a), b)
    decreases |a|
  {
    assert AllAllowed(a + b) by {
      forall i | 0 <= i < |a + b| ensures Allowed((a + b)[i]) {
        if i < |a| { assert (a + b)[i] == a[i]; } else { assert (a + b)[i] == b[i - |a|]; }
      }
    }
    if a != [] {
      assert (a + b)[1..] == a[1..] + b;
      assert (a + b)[0] == a[0];
      RunConcat(Step(s, a[0]), a[1..], b);
    } else {
      assert a + b == b;
    }
  }

  /** Every `ComputeAndStoreFrameTimings` appends exactly one data line and
      nothing else writes: the lines already written stay as they are. */
  lemma {:induction false} RunAppendsOneRowPerCompute(s: State, calls: seq<Call>)
    requires AllAllowed(calls)
    ensures var t := Run(s, calls);
      |t.lines| == |s.lines| + CountComputes(calls)
      && t.lines[..|s.lines|] == s.lines
      && forall i :: |s.lines| <= i < |t.lines| ==> t.lines[i].Data?
    decreases |calls|
  {
    if calls != [] {
      var s' := Step(s, calls[0]);
      RunAppendsOneRowPerCompute(s', calls[1..]);
      var t := Run(s', calls[1..]);
      assert t.lines[..|s'.lines|] == s'.lines;
      assert s'.lines[..|s.lines|] == s.lines;
      assert t.lines[..|s.lines|] == s'.lines[..|s.lines|];
    }
  }

  /** A profiler writes the header exactly once, as its first line, and
      then one data line per frame it times. */
  lemma HeaderExactlyOnceThenRows(fps: U32, now0: Instant, now1: Instant, calls: seq<Call>)
    requires fps > 0 && AllAllowed(calls)
    ensures var t := Run(Initial(fps, now0, now1), calls);
      |t.lines| == 1 + CountComputes(calls)
      && t.lines[0] == Header(FileHeader)
      && forall i :: 1 <= i < |t.lines| ==> t.lines[i].Data?
  {
    var s := Initial(fps, now0, now1);
    RunAppendsOneRowPerCompute(s, calls);
    assert Run(s, calls).lines[..1] == [Header(FileHeader)];
  }

  /** Until the rate changes again, every data line carries the frame
      duration currently set. */
  lemma {:induction false} RowsCarryCurrentFrameDuration(s: State, calls: seq<Call>)
    requires AllAllowed(calls) && NoRateChange(calls)
    ensures var t := Run(s, calls);
      t.frameDuration == s.frameDuration
      && |s.lines| <= |t.lines|
      && forall i :: |s.lines| <= i < |t.lines| ==>
           t.lines[i].Data? && t.lines[i].row.frameDuration == AsMicros(s.frameDuration)
    decreases |calls|
  {
    if calls != [] {
      assert !calls[0].SetFrameDuration?;
      var s' := Step(s, calls[0]);
      assert AllAllowed(calls[1..]) && NoRateChange(calls[1..]) by {
        forall i | 0 <= i < |calls[1..]| ensures Allowed(calls[1..][i]) && !calls[1..][i].SetFrameDuration? {
          assert calls[1..][i] == calls[i + 1];
        }
      }
      RowsCarryCurrentFrameDuration(s', calls[1..]);
      RunAppendsOneRowPerCompute(s', calls[1..]);
      var t := Run(s', calls[1..]);
      forall i | |s.lines| <= i < |s'.lines|
        ensures t.lines[i].Data? && t.lines[i].row.frameDuration == AsMicros(s.frameDuration)
      {
        assert t.lines[i] == t.lines[..|s'.lines|][i];
      }
    }
  }

  /** Changing the rate to the same value twice has the same effect as
      changing it once, whatever follows. */
  lemma SetFrameDurationIdempotent(s: State, fps: U32, before: seq<Call>, after: seq<Call>)
    requires fps > 0 && AllAllowed(before) && AllAllowed(after)
    ensures AllAllowed(before + [SetFrameDuration(fps)] + after)
    ensures AllAllowed(before + [SetFrameDuration(fps), SetFrameDuration(fps)] + after)
    ensures Run(s, before + [SetFrameDuration(fps), SetFrameDuration(fps)] + after)
         == Run(s, before + [SetFrameDuration(fps)] + after)
  {
    var once, twice := [SetFrameDuration(fps)], [SetFrameDuration(fps), SetFrameDuration(fps)];
    RunConcat(s, before, once);
    RunConcat(s, before, twice);
    RunConcat(s, before + once, after);
    RunConcat(s, before + twice, after);
    var m := Run(s, before);
    assert Run(m, twice) == Run(m, once);
  }

  /** Marking the start of the sleep twice without timing the frame in
      between keeps only the second mark. */
  lemma MarkSleepStartLastWins(s: State, p1: Instant, n1: Instant, p2: Instant, n2: Instant,
                               before: seq<Call>, after: seq<Call>)
    requires AllAllowed(before) && AllAllowed(after)
    ensures AllAllowed(before + [MarkSleepStart(p2, n2)] + after)
    ensures AllAllowed(before + [MarkSleepStart(p1, n1), MarkSleepStart(p2, n2)] + after)
    ensures Run(s, before + [MarkSleepStart(p1, n1), MarkSleepStart(p2, n2)] + after)
         == Run(s, before + [MarkSleepStart(p2, n2)] + after)
  {
    var once, twice := [MarkSleepStart(p2, n2)], [MarkSleepStart(p1, n1), MarkSleepStart(p2, n2)];
    RunConcat(s, before, once);
    RunConcat(s, before, twice);
    RunConcat(s, before + once, after);
    RunConcat(s, before + twice, after);
    var m := Run(s, before);
    assert Run(m, twice) == Run(m, once);
  }

  /** One frame timed by the protocol: with readings that do not go back in
      time, the line written holds the work since the previous frame's end,
      the saturated budget left, and the sleep actually measured. */
  lemma FrameRecordsMeasuredSpans(s: State, previousFrameEnd: Instant, sleepStart: Instant, sleepEnd: Instant)
    requires previousFrameEnd <= sleepStart <= sleepEnd
    ensures var t := Run(s, [MarkSleepStart(previousFrameEnd, sleepStart), ComputeAndStoreFrameTimings(sleepEnd)]);
      var work := sleepStart - previousFrameEnd;
      var expected := if work <= s.frameDuration then s.frameDuration - work else 0;
      t.lines == s.lines + [Data(Row(AsMicros(s.frameDuration), AsMicros(work), AsMicros(expected),
                                     AsMicros(sleepEnd - sleepStart),
                                     AsMicros(sleepEnd - sleepStart) - AsMicros(expected)))]
      && t.frameDuration == s.frameDuration
      && t.previousFrameEnd == previousFrameEnd && t.sleepStart == sleepStart
  {
    var calls := [MarkSleepStart(previousFrameEnd, sleepStart), ComputeAndStoreFrameTimings(sleepEnd)];
    var marked := Step(s, calls[0]);
    var timed := Step(marked, calls[1]);
    assert calls[1..] == [ComputeAndStoreFrameTimings(sleepEnd)];
    assert calls[1..][1..] == [];
    assert Run(timed, []) == timed;
    assert Run(marked, calls[1..]) == timed;
  }

  /** The source's skew subtraction overflows exactly when the limiter
      woke, in whole microseconds, before its expected sleep was over; the
      signed skew is then negative. */
  lemma SkewAsWrittenOverflowsOnEarlyWake(actualSleep: Nanos, expectedSleep: Nanos)
    ensures SkewMicrosAsWritten(actualSleep, expectedSleep).None?
        <==> SkewMicros(actualSleep, expectedSleep) < 0
  {
  }

  /** A frame at 60 fps with 5 ms of work and 11 ms of sleep: the source's
      skew has no value, the signed skew is -666 microseconds. */
  lemma SixtyFpsEarlyWakeExample()
    ensures SecondDividedBy(60) == 16_666_666
    ensures ExpectedSleep(16_666_666, 5_000_000) == 11_666_666
    ensures SkewMicrosAsWritten(11_000_000, 11_666_666) == None
    ensures SkewMicros(11_000_000, 11_666_666) == -666
  {
  }

  /** The profiler object: its frame budget, the two readings of the
      current frame, and the lines written to its output file so far. */
  class FrameLimiterProfiler {
    var frameDuration: Nanos
    var previousFrameEnd: Instant
    var sleepStart: Instant
    var writer: seq<Line>

    function Snapshot(): State
      reads this
    {
      State(frameDuration, previousFrameEnd, sleepStart, writer)
    }

    /** `new`: two placeholder clock readings, the budget for `fps`, and the
        header as the file's first line. */
    constructor (fps: U32, now0: Instant, now1: Instant)
      requires fps > 0
      ensures frameDuration * fps <= NanosPerSecond < (frameDuration + 1) * fps
      ensures previousFrameEnd == now0 && sleepStart == now1
      ensures writer == [Header(FileHeader)]
      ensures Snapshot() == Initial(fps, now0, now1)
    {
      var previousFrameEnd0 := now0;
      var sleepStart0 := now1;
      frameDuration := SecondDividedBy(fps);
      previousFrameEnd := previousFrameEnd0;
      sleepStart := sleepStart0;
      writer := [];
      new;
      WriteHeader();
    }

    method SetFrameDuration(fps: U32)
      requires fps > 0
      modifies this`frameDuration
      ensures frameDuration * fps <= NanosPerSecond < (frameDuration + 1) * fps
      ensures Snapshot() == Step(old(Snapshot()), Call.SetFrameDuration(fps))
    {
      frameDuration := SecondDividedBy(fps);
    }

    method MarkSleepStart(previousFrameEnd: Instant, now: Instant)
      modifies this`previousFrameEnd, this`sleepStart
      ensures this.previousFrameEnd == previousFrameEnd && sleepStart == now
      ensures Snapshot() == Step(old(Snapshot()), Call.MarkSleepStart(previousFrameEnd, now))
    {
      this.previousFrameEnd := previousFrameEnd;
      sleepStart := now;
    }

    method ComputeAndStoreFrameTimings(now: Instant)
      modifies this`writer
      ensures writer == old(writer)
        + [Data(FrameTimings(frameDuration, previousFrameEnd, sleepStart, now))]
      ensures Snapshot() == Step(old(Snapshot()), Call.ComputeAndStoreFrameTimings(now))
    {
      var sleepEnd := now;
      var frameWork := Elapsed(sleepStart, previousFrameEnd);
      var expectedSleep := CheckedSub(frameDuration, frameWork).GetOr(ZeroDuration);
      var actualSleep := Elapsed(sleepEnd, sleepStart);
      var skew := AsMicros(actualSleep) - AsMicros(expectedSleep);
      if expectedSleep < ZeroDuration {
        assert false;
      }
      WriteFrameTimings(frameWork, expectedSleep, actualSleep, skew);
    }

    method WriteHeader()
      modifies this`writer
      ensures writer == old(writer) + [Header(FileHeader)]
    {
      writer := writer + [Header(FileHeader)];
    }

    method WriteFrameTimings(frameWork: Nanos, expectedSleep: Nanos, actualSleep: Nanos, skew: int)
      modifies this`writer
      ensures writer == old(writer) + [Data(Row(AsMicros(frameDuration), AsMicros(frameWork),
                                                AsMicros(expectedSleep), AsMicros(actualSleep), skew))]
    {
      var row := Row(AsMicros(frameDuration), AsMicros(frameWork),
                     AsMicros(expectedSleep), AsMicros(actualSleep), skew);
      writer := writer + [Data(row)];
    }
  }
}
