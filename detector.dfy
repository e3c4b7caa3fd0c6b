/** The detection pipeline of b.py: `callback`, `log_detection` and the
    module-level debounce clock `last_detection_time`.

    The clock readings (`time.time()`) are parameters. `rows` are the rows
    that one run of the program appends to the CSV file; what the file held
    before the run, the human-readable timestamp and printing are not
    modelled. */
module Detector {
  import opened Wrappers
  import Spectrum
  import Level

  /** `SAMPLE_RATE`, in samples per second. */
  const SampleRate: real := 44100.0
  /** `int(SAMPLE_RATE * DURATION)`: samples per 0.04-second frame. */
  const FrameLength: nat := 1764
  /** Only frequencies strictly between these bounds are recorded (Hz). */
  const BandLow: real := 3000.0
  const BandHigh: real := 3300.0
  /** `min_time_between_detections`: detections less than this many seconds
      after the last one are the same event. */
  const SameEventWindow: real := 1.0
  /** `long_interval_threshold`: a row is written only after a gap of at
      least this many seconds. */
  const ReportInterval: real := 30.0

  /** `max_freq and 3000 < max_freq < 3300`. A frequency of 0.0 is falsy in
      the program, which is why it is tested; it lies outside the band, so
      the test changes nothing. */
  predicate InBand(freq: Option<real>)
    ensures InBand(freq) <==> freq.Some? && BandLow < freq.value < BandHigh
  {
    freq.Some? && freq.value != 0.0 && BandLow < freq.value && freq.value < BandHigh
  }

  /** With the program's frames, bins are 25 Hz apart, and the peaks that
      qualify are exactly those of bins 121 to 131 (3025 to 3275 Hz): bins
      120 and 132 sit on the excluded band edges. */
  lemma BandBins(k: nat)
    ensures InBand(Some(Spectrum.BinFrequency(k, FrameLength, SampleRate))) <==> 121 <= k <= 131
  {
  }

  /** One row of the log file: the wall-clock time at which it is written,
      the seconds since the previous qualifying detection, the frequency and
      the level. */
  datatype LogRow = LogRow(epoch: real, elapsed: real, frequency: real, decibels: real)

  /** The three ways `callback` reacts to an analysed frame. */
  datatype Outcome =
    | Ignored     // out of band, or within the same-event window: nothing changes
    | Suppressed  // a new detection too soon to record: only the clock restarts
    | Accepted    // a row is written and the clock restarts

  /** The decision `callback` takes, from the frequency, the current time
      and the time of the last qualifying detection. */
  function Classify(freq: Option<real>, now: real, last: real): (o: Outcome)
    ensures o == Ignored <==> !InBand(freq) || now - last < SameEventWindow
    ensures o == Suppressed <==> InBand(freq) && SameEventWindow <= now - last < ReportInterval
    ensures o == Accepted <==> InBand(freq) && ReportInterval <= now - last
  {
    if !InBand(freq) then Ignored
    else if now - last < SameEventWindow then Ignored
    else if now - last >= ReportInterval then Accepted
    else Suppressed
  }

  /** The value of the program's state: the debounce clock, the rows of the
      log file, and (ghost bookkeeping) the detection time of each row. */
  datatype Gate = Gate(last: real, rows: seq<LogRow>, acceptedAt: seq<real>)

  /** State at start-up: `last_detection_time = 0` and no row appended yet
      by this run. */
  const Initial: Gate := Gate(0.0, [], [])

  /** What `callback` does to the state for one analysed frame; `stamp` is
      the clock reading `log_detection` takes when it writes the row. */
  function Step(g: Gate, freq: Option<real>, now: real, decibels: real, stamp: real): (r: Gate)
    ensures |r.rows| == |g.rows| + (if Classify(freq, now, g.last) == Accepted then 1 else 0)
    ensures r.rows[..|g.rows|] == g.rows
  {
    match Classify(freq, now, g.last)
    case Ignored => g
    case Suppressed => g.(last := now)
    case Accepted =>
      Gate(now, g.rows + [LogRow(stamp, now - g.last, freq.value, decibels)], g.acceptedAt + [now])
  }

  /** The invariant of the state: every row was written for an in-band
      frequency after a gap of at least 30 seconds; no row was detected
      after the clock; any two rows were detected at least 30 seconds
      apart; and a row's interval never exceeds the gap since the row
      before it (the clock may have restarted in between without a row). */
  ghost predicate Inv(g: Gate)
  {
    && |g.acceptedAt| == |g.rows|
    && (forall i :: 0 <= i < |g.rows| ==>
          ReportInterval <= g.rows[i].elapsed && BandLow < g.rows[i].frequency < BandHigh)
    && (forall i :: 0 <= i < |g.acceptedAt| ==> g.acceptedAt[i] <= g.last)
    && (forall i, j :: 0 <= i < j < |g.acceptedAt| ==> g.acceptedAt[i] + ReportInterval <= g.acceptedAt[j])
    && (forall i :: 0 < i < |g.rows| ==> g.rows[i].elapsed <= g.acceptedAt[i] - g.acceptedAt[i - 1])
  }

  lemma InitialInv()
    ensures Inv(Initial) && Initial.last == 0.0 && Initial.rows == []
  {
  }

  /** Every step keeps the invariant. */
  lemma StepInv(g: Gate, freq: Option<real>, now: real, decibels: real, stamp: real)
    requires Inv(g)
    ensures Inv(Step(g, freq, now, decibels, stamp))
  {
  }

  /** Out-of-band frames, exactly 3000 and 3300 Hz included, and frames
      without a peak change nothing. */
  lemma OutOfBandChangesNothing(g: Gate, freq: Option<real>, now: real, decibels: real, stamp: real)
    requires freq.None? || freq.value <= BandLow || BandHigh <= freq.value
    ensures Step(g, freq, now, decibels, stamp) == g
  {
  }

  /** An in-band detection within one second of the last one is the same
      event: no row, and the clock is not restarted. */
  lemma SameEventChangesNothing(g: Gate, freq: Option<real>, now: real, decibels: real, stamp: real)
    requires InBand(freq) && now - g.last < SameEventWindow
    ensures Step(g, freq, now, decibels, stamp) == g
  {
  }

  /** An in-band detection between 1 and 30 seconds after the last one
      writes no row but restarts the clock. */
  lemma TooSoonRestartsClock(g: Gate, freq: Option<real>, now: real, decibels: real, stamp: real)
    requires InBand(freq) && SameEventWindow <= now - g.last < ReportInterval
    ensures Step(g, freq, now, decibels, stamp).rows == g.rows
    ensures Step(g, freq, now, decibels, stamp).last == now
  {
  }

  /** An in-band detection at least 30 seconds after the last one writes
      exactly one row, holding the interval, and restarts the clock. */
  lemma LongGapWritesOneRow(g: Gate, freq: Option<real>, now: real, decibels: real, stamp: real)
    requires InBand(freq) && now - g.last >= ReportInterval
    ensures Step(g, freq, now, decibels, stamp).rows == g.rows + [LogRow(stamp, now - g.last, freq.value, decibels)]
    ensures Step(g, freq, now, decibels, stamp).last == now
  {
  }

  /** The clock moves only forward, and by at least a second each time. */
  lemma ClockAdvances(g: Gate, freq: Option<real>, now: real, decibels: real, stamp: real)
    ensures var r := Step(g, freq, now, decibels, stamp);
      r.last == g.last || r.last >= g.last + SameEventWindow
  {
  }

  /** The program fed a sequence of analysed frames, one callback each. */
  datatype Tick = Tick(freq: Option<real>, now: real, decibels: real, stamp: real)

  function Run(g: Gate, ticks: seq<Tick>): Gate
    decreases |ticks|
  {
    if |ticks| == 0 then g
    else
      var t := ticks[0];
      Run(Step(g, t.freq, t.now, t.decibels, t.stamp), ticks[1..])
  }

  /** Over any sequence of frames, whatever the clock readings, the clock
      never goes back, the log only grows at its end, and the invariant
      holds throughout. */
  lemma {:induction false} RunKeepsInvariant(g: Gate, ticks: seq<Tick>)
    requires Inv(g)
    ensures var r := Run(g, ticks);
      && Inv(r)
      && g.last <= r.last
      && |g.rows| <= |r.rows| && r.rows[..|g.rows|] == g.rows
    decreases |ticks|
  {
    if |ticks| > 0 {
      var t := ticks[0];
      var g' := Step(g, t.freq, t.now, t.decibels, t.stamp);
      StepInv(g, t.freq, t.now, t.decibels, t.stamp);
      ClockAdvances(g, t.freq, t.now, t.decibels, t.stamp);
      RunKeepsInvariant(g', ticks[1..]);
      var r := Run(g', ticks[1..]);
      assert r.rows[..|g'.rows|][..|g.rows|] == r.rows[..|g.rows|];
    }
  }

  /** Within one run, any two logged detections are at least 30 seconds
      apart and every logged interval is at least 30 seconds. */
  lemma LoggedRowsSpacedApart(ticks: seq<Tick>, i: nat, j: nat)
    requires i < j < |Run(Initial, ticks).rows|
    ensures var r := Run(Initial, ticks);
      && |r.acceptedAt| == |r.rows|
      && r.acceptedAt[i] + ReportInterval <= r.acceptedAt[j]
      && ReportInterval <= r.rows[j].elapsed
  {
    RunKeepsInvariant(Initial, ticks);
  }

  /** The 30-second gap is measured from the last qualifying detection, not
      from the last row: two in-band detections 20 seconds apart, the first
      of them 20 seconds after the clock, write no row although the second
      comes 40 seconds after the clock was last set. */
  lemma GapMeasuredFromLastDetection(g: Gate, f: real, db: real, stamp: real)
    requires BandLow < f < BandHigh
    ensures Run(g, [Tick(Some(f), g.last + 20.0, db, stamp), Tick(Some(f), g.last + 40.0, db, stamp)]).rows == g.rows
    ensures Run(g, [Tick(Some(f), g.last + 20.0, db, stamp), Tick(Some(f), g.last + 40.0, db, stamp)]).last == g.last + 40.0
  {
    var ticks := [Tick(Some(f), g.last + 20.0, db, stamp), Tick(Some(f), g.last + 40.0, db, stamp)];
    var g1 := Step(g, Some(f), g.last + 20.0, db, stamp);
    assert g1 == g.(last := g.last + 20.0);
    assert ticks[1..] == [ticks[1]];
    assert Run(g1, ticks[1..]) == Run(Step(g1, Some(f), g.last + 40.0, db, stamp), []);
  }

  /** The first in-band detection after start-up, at a clock reading of 30
      seconds or more, is written with the whole reading as its interval. */
  lemma FirstDetectionIsLogged(freq: Option<real>, now: real, decibels: real, stamp: real)
    requires InBand(freq) && now >= ReportInterval
    ensures Step(Initial, freq, now, decibels, stamp).rows == [LogRow(stamp, now, freq.value, decibels)]
  {
  }

  /** A trace from start-up: a detection at 100 s is written (interval 100),
      one at 100.5 s is the same event, one at 105 s restarts the clock
      without a row, and one at 140 s is written with interval 35. */
  lemma StartUpTrace(f: real, db: real, stamp: real)
    requires BandLow < f < BandHigh
    ensures Run(Initial, [Tick(Some(f), 100.0, db, stamp), Tick(Some(f), 100.5, db, stamp),
                          Tick(Some(f), 105.0, db, stamp), Tick(Some(f), 140.0, db, stamp)])
      == Gate(140.0, [LogRow(stamp, 100.0, f, db), LogRow(stamp, 35.0, f, db)], [100.0, 140.0])
  {
    var t1, t2, t3, t4 := Tick(Some(f), 100.0, db, stamp), Tick(Some(f), 100.5, db, stamp),
                          Tick(Some(f), 105.0, db, stamp), Tick(Some(f), 140.0, db, stamp);
    var ticks := [t1, t2, t3, t4];
    var g1 := Gate(100.0, [LogRow(stamp, 100.0, f, db)], [100.0]);
    var g3 := g1.(last := 105.0);
    assert Step(Initial, Some(f), 100.0, db, stamp) == g1;
    assert Step(g1, Some(f), 100.5, db, stamp) == g1;
    assert Step(g1, Some(f), 105.0, db, stamp) == g3;
    assert ticks[1..] == [t2, t3, t4] && [t2, t3, t4][1..] == [t3, t4] && [t3, t4][1..] == [t4];
    calc {
      Run(Initial, ticks);
      Run(g1, [t2, t3, t4]);
      Run(g1, [t3, t4]);
      Run(g3, [t4]);
      Run(Step(g3, Some(f), 140.0, db, stamp), []);
    }
  }

  /** The program's state as an object: `last_detection_time` and the log
      file. */
  class Detector {
    var lastDetectionTime: real
    var rows: seq<LogRow>
    ghost var acceptedAt: seq<real>

    ghost function State(): Gate
      reads this
    {
      Gate(lastDetectionTime, rows, acceptedAt)
    }

    ghost predicate Valid()
      reads this
    {
      Inv(State())
    }

    constructor ()
      ensures Valid() && State() == Initial
    {
      lastDetectionTime := 0.0;
      rows := [];
      acceptedAt := [];
    }

    /** `log_detection`: append one row to the log file. It does not extend
        the ghost `acceptedAt`, so on its own it breaks `Valid()`; `OnFrame`,
        its only caller, restores it by recording the detection time. */
    method LogDetection(timeDiff: real, frequency: real, decibels: real, stamp: real)
      modifies this`rows
      ensures rows == old(rows) + [LogRow(stamp, timeDiff, frequency, decibels)]
    {
      rows := rows + [LogRow(stamp, timeDiff, frequency, decibels)];
    }

    /** The debounce part of `callback`, for a frame whose peak frequency and
        level are already known; `now` is the clock reading of the
        detection and `stamp` the one taken when the row is written. */
    method OnFrame(freq: Option<real>, now: real, decibels: real, stamp: real)
      requires Valid()
      modifies this
      ensures Valid()
      ensures State() == Step(old(State()), freq, now, decibels, stamp)
    {
      StepInv(State(), freq, now, decibels, stamp);
      if InBand(freq) {
        var timeDiff := now - lastDetectionTime;
        if timeDiff < SameEventWindow {
          return;
        }
        if timeDiff >= ReportInterval {
          LogDetection(timeDiff, freq.value, decibels, stamp);
          acceptedAt := acceptedAt + [now];
        }
        lastDetectionTime := now;
      }
    }

    /** `callback`: a frame reported with a stream error is skipped;
        otherwise its peak frequency and level are computed and the frame
        goes through the debounce. `magnitude` and `peaks` are what the
        transform and the peak finder produce for `audio`. */
    method Callback(status: bool, audio: seq<real>, magnitude: seq<real>, peaks: seq<nat>,
                    sqrt: real -> real, log10: real -> real, now: real, stamp: real)
      requires Valid()
      requires |audio| > 0 && |magnitude| == |audio| / 2 + 1
      requires Spectrum.ValidPeaks(magnitude, peaks)
      modifies this
      ensures Valid()
      ensures State() == if status then old(State())
        else Step(old(State()), Spectrum.DetectPeakFrequency(magnitude, peaks, |audio|, SampleRate),
                  now, Level.CalculateDecibels(audio, sqrt, log10), stamp)
    {
      if status {
        return;
      }
      var maxFreq := Spectrum.DetectPeakFrequency(magnitude, peaks, |audio|, SampleRate);
      var decibels := Level.CalculateDecibels(audio, sqrt, log10);
      OnFrame(maxFreq, now, decibels, stamp);
    }
  }
}
