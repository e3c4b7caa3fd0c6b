# Tone detector: peak picking, loudness and debounced logging

This project models the core of a small Python program (`b.py`) that listens
to a microphone in 0.04-second frames at 44100 Hz, finds the dominant
frequency of each frame, measures its loudness, and appends a row to a CSV
log when a tone between 3000 and 3300 Hz appears after a quiet spell of at
least 30 seconds.

Four modules:

- `Wrappers` (`wrappers.dfy`): the `Option` type that stands for Python's `None`.
- `Spectrum` (`spectrum.dfy`): `detect_peak_frequency`. The magnitude
  spectrum and the peak indices are inputs; the model covers the bin
  frequency `k * rate / n` and the choice of the strongest peak, the first
  one on ties as `np.argmax` picks it.
- `Level` (`level.dfy`): `calculate_decibels`, with the square root and the
  base-10 logarithm passed in as functions. The branch between the
  logarithm and the -100 dB silence floor is modelled exactly.
- `Detector` (`detector.dfy`): `callback` and `log_detection` with the
  global `last_detection_time`. The class `Detector` holds the clock and the
  rows this run appends to the log, and its methods mirror the program's
  statements. `OnFrame` and `Callback` are proved against the pure function
  `Step` on the state value `Gate`; `LogDetection` is proved against its own
  append contract. The
  debounce properties are lemmas about `Step` and about `Run`, which feeds
  `Step` one frame after another.

Every outcome of the debounce is covered, including a quirk: a detection
1 to 30 seconds after the previous one writes no row but still restarts
the clock. So the 30-second gap runs from the last in-band detection, not
from the last row (`GapMeasuredFromLastDetection`).

`last_detection_time` starts at 0 (b.py:14). A detection at clock reading
0 therefore has a `time_diff` of 0, which is below one second, so the code
ignores it (b.py:73-74). `StartUpTrace` uses small readings from 100 s on to
keep the trace readable. The real wall clock `time.time()` reads about
1.7e9 s, so the first row's interval is that whole reading.

## Model

| member | source | states |
|---|---|---|
| `Spectrum.BinSpacing` | b.py:21 | the bin spacing is positive and n spacings make up the sampling rate |
| `Spectrum.BinFrequency` | b.py:21 | bin frequencies are never negative, and only bin 0 is at 0 Hz |
| `Spectrum.BinFrequencyIncreasing` | b.py:21 | a higher bin has a higher frequency, higher by exactly (k2-k1) bin spacings |
| `Spectrum.BinFrequencyAtMostNyquist` | b.py:20-21 | none of the n/2+1 bins of the real transform lies above rate/2 |
| `Spectrum.ArgMax` | b.py:32 | the index chosen holds a maximum, and every earlier element is strictly smaller (first maximum, as np.argmax) |
| `Spectrum.PeakMagnitudes` | b.py:31 | `magnitude[peaks]` has one entry per peak, the magnitude of that peak's bin |
| `Spectrum.StrongestPeak` | b.py:30-33 | the position picked is the strongest listed peak, the first one among equals |
| `Spectrum.StrongestPeakUnique` | b.py:30-33 | at most one position is "strongest, first among equals", so the selection is determined |
| `Spectrum.DetectPeakFrequency` | b.py:18-35 | no frequency exactly when there are no peaks; otherwise the bin frequency of the strongest listed peak, which lies between 0 and half the sampling rate |
| `Level.SumSquares` | b.py:40 | the energy of a frame (sum of squared samples) is never negative |
| `Level.MeanSquare` | b.py:40 | the mean square of a non-empty frame is never negative |
| `Level.CalculateDecibels` | b.py:37-47 | -100 dB when the RMS is not positive (and for an empty frame, whose mean is NaN); 20·log10(rms / 20 µPa) only when the RMS is positive |
| `Level.ZeroFrameHasNoEnergy` | b.py:40 | an all-zero frame has zero energy |
| `Level.SilentFrameIsAtFloor` | b.py:40-45 | with a true square root, a frame of digital silence reads exactly -100 dB |
| `Level.LogBranchIffEnergy` | b.py:40-43 | with a true square root, the logarithm branch is taken exactly when the frame's energy is positive |
| `Detector.InBand` | b.py:68 | a frame qualifies exactly when it has a frequency strictly between 3000 and 3300 Hz; the truthiness test on 0.0 changes nothing |
| `Detector.BandBins` | b.py:68 | with 1764-sample frames at 44100 Hz, a peak qualifies exactly when its bin is 121 to 131; bins 120 and 132 fall on the excluded edges 3000 and 3300 Hz |
| `Detector.Classify` | b.py:68-77 | a frame is ignored exactly when it is out of band or less than 1 s after the clock, suppressed exactly when in band 1 to 30 s after it, and accepted exactly when in band at least 30 s after it |
| `Detector.Step` | b.py:68-80 | a frame adds a row exactly when it is accepted and never alters earlier rows |
| `Detector.InitialInv` | b.py:13-16 | at the start of a run (clock 0, no row appended yet by this run) the invariant holds |
| `Detector.StepInv` | b.py:68-80 | every frame keeps the invariant: rows are in band with intervals of at least 30 s, detected at least 30 s apart, not after the clock, and each interval is at most the gap since the previous row |
| `Detector.OutOfBandChangesNothing` | b.py:68 | no frequency, or one at or outside 3000 or 3300 Hz, leaves clock and log unchanged |
| `Detector.SameEventChangesNothing` | b.py:70-74 | an in-band detection less than 1 s after the clock leaves clock and log unchanged |
| `Detector.TooSoonRestartsClock` | b.py:76-80 | an in-band detection 1 to 30 s after the clock writes no row but sets the clock to now |
| `Detector.LongGapWritesOneRow` | b.py:49-54 | an in-band detection at least 30 s after the clock appends exactly the row (write time, interval, frequency, level) and sets the clock to now |
| `Detector.ClockAdvances` | b.py:70-80 | the clock either stays or moves forward by at least one second |
| `Detector.RunKeepsInvariant` | b.py:57-80 | over any sequence of frames and clock readings the invariant holds, the clock never goes back and the log only grows at its end |
| `Detector.LoggedRowsSpacedApart` | b.py:77-80 | within one run, any two logged detections are at least 30 s apart and every logged interval is at least 30 s |
| `Detector.GapMeasuredFromLastDetection` | b.py:77-80 | detections 20 s and 40 s after the clock write no row, and leave the clock at the second one |
| `Detector.FirstDetectionIsLogged` | b.py:14 | after start-up, the first in-band detection at a reading of 30 s or more is logged with the whole reading as its interval |
| `Detector.StartUpTrace` | b.py:68-80 | detections at 100, 100.5, 105 and 140 s give rows with intervals 100 and 35, and the clock at 140 |
| `Detector.Detector.constructor` | b.py:14 | the object starts in the start-up state with the invariant |
| `Detector.Detector.LogDetection` | b.py:49-54 | appends exactly one row and changes nothing else |
| `Detector.Detector.OnFrame` | b.py:68-80 | keeps the invariant and changes clock and log exactly as `Step` does |
| `Detector.Detector.Callback` | b.py:57-80 | a frame with a stream error changes nothing; otherwise the peak frequency and level go through `Step` |

## Left out

- The Fourier transform (`np.fft.rfft`) and the peak finder (`find_peaks` with `height=0, distance=5`) are library numerics. Their outputs are inputs; the model only asks that the peak indices are bins of the spectrum.
- Floating point is not modelled: all arithmetic is on exact reals, so float64 rounding of `k * rate / n`, of the mean and of the elapsed time is not captured.
- The square root and base-10 logarithm are parameters, not implementations; `Level.IsSquareRoot` states what a square root must satisfy.
- Level.LogBranchIffEnergy: states the log branch in terms of the frame's energy, not "some sample is non-zero". That step is the zero-product property of real squares, which the solver does not prove reliably here.
- The clock (`time.time()`) is a parameter: `now` for the detection and `stamp` for the second reading `log_detection` takes when it writes the row. The human-readable `strftime` column, the CSV text format and the console messages are not modelled.
- `rows` are only the rows one run of the program appends. The file is opened in append mode (b.py:52), so rows from earlier runs stay in it; they are not modelled. The clock restarts at 0 on every start (b.py:14), so the first in-band detection after a restart is always logged. Across a restart, two rows of the file can therefore be less than 30 s apart: the 30 s spacing holds only within one run.
- A failing write to the log file is not modelled. In the program the exception would leave `callback` before the clock is reset.
- The stream status object is reduced to a boolean (error or not). `Detector.Detector.Callback` requires a non-empty frame, as the input stream always delivers 1764 samples.
- `main` (device listing, opening the input stream, the sleep loop and the exception handlers) is device and process plumbing.
- `a.py` repeats `detect_peak_frequency` and only prints in-band frequencies; `white-noise.py` synthesises random noise and plays it. Neither holds logic beyond what is modelled here.
