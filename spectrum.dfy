/** Peak selection of `detect_peak_frequency` (b.py).

    The discrete Fourier transform and the peak finder are library code: the
    magnitude spectrum (`np.abs(np.fft.rfft(frame))`) and the list of peak bin
    indices (`find_peaks(magnitude, height=0, distance=5)`) are inputs here.
    What remains is the bin-to-frequency mapping and the choice of the
    strongest peak. */
module Spectrum {
  import opened Wrappers

  /** Spacing of the bins of the real-input transform of an `n`-sample frame
      taken at `rate` samples per second: `1 / (n * d)` with `d = 1 / rate`.
      The program always passes its fixed sampling rate, so `1.0 / rate`
      never divides by zero. */
  function BinSpacing(n: nat, rate: real): (w: real)
    requires n > 0 && rate > 0.0
    ensures w > 0.0
    ensures n as real * w == rate
  {
    rate / n as real
  }

  /** Centre frequency of bin `k` (numpy's `rfftfreq`: the bin index times
      the spacing). */
  function BinFrequency(k: nat, n: nat, rate: real): (f: real)
    requires n > 0 && rate > 0.0
    ensures f >= 0.0
    ensures f == 0.0 <==> k == 0
  {
    var w := BinSpacing(n, rate);
    ScaleMonotone(0.0, k as real, w);
    if k > 0 then ScaleStrict(0.0, k as real, w); k as real * w else k as real * w
  }

  /** A higher bin has a higher frequency, by a whole number of spacings. */
  lemma BinFrequencyIncreasing(k1: nat, k2: nat, n: nat, rate: real)
    requires n > 0 && rate > 0.0 && k1 < k2
    ensures BinFrequency(k1, n, rate) < BinFrequency(k2, n, rate)
    ensures BinFrequency(k2, n, rate) - BinFrequency(k1, n, rate) == (k2 - k1) as real * BinSpacing(n, rate)
  {
    var w := BinSpacing(n, rate);
    ScaleStrict(k1 as real, k2 as real, w);
    assert k2 as real * w - k1 as real * w == (k2 - k1) as real * w;
  }

  /** A transform of `n` samples has `n / 2 + 1` bins; none of them lies above
      half the sampling rate (the Nyquist frequency). */
  lemma BinFrequencyAtMostNyquist(k: nat, n: nat, rate: real)
    requires n > 0 && rate > 0.0 && k <= n / 2
    ensures BinFrequency(k, n, rate) <= rate / 2.0
  {
    var w := BinSpacing(n, rate);
    assert 2 * k <= n;
    ScaleMonotone(2.0 * k as real, n as real, w);
    assert (2.0 * k as real) * w == 2.0 * (k as real * w);
  }

  lemma ScaleMonotone(a: real, b: real, c: real)
    requires a <= b && 0.0 <= c
    ensures a * c <= b * c
  {
  }

  lemma ScaleStrict(a: real, b: real, c: real)
    requires a < b && 0.0 < c
    ensures a * c < b * c
  {
  }

  /** Index of the first largest element, as `np.argmax` chooses it. */
  function ArgMax(s: seq<real>): (k: nat)
    requires |s| > 0
    ensures k < |s|
    ensures forall i :: 0 <= i < |s| ==> s[i] <= s[k]
    ensures forall i :: 0 <= i < k ==> s[i] < s[k]
  {
    if |s| == 1 then 0
    else
      var j := ArgMax(s[..|s| - 1]);
      if s[|s| - 1] > s[j] then |s| - 1 else j
  }

  /** Every listed peak is a bin of the magnitude spectrum. */
  predicate ValidPeaks(magnitude: seq<real>, peaks: seq<nat>)
  {
    forall i :: 0 <= i < |peaks| ==> peaks[i] < |magnitude|
  }

  /** `magnitude[peaks]`: the magnitudes of the listed peaks, in list order. */
  function PeakMagnitudes(magnitude: seq<real>, peaks: seq<nat>): (m: seq<real>)
    requires ValidPeaks(magnitude, peaks)
    ensures |m| == |peaks|
    ensures forall i :: 0 <= i < |peaks| ==> m[i] == magnitude[peaks[i]]
  {
    seq(|peaks|, i requires 0 <= i < |peaks| => magnitude[peaks[i]])
  }

  /** Position `j` of the peak list holds a peak at least as strong as every
      listed peak, and strictly stronger than every peak listed before it. */
  predicate IsStrongestPeak(magnitude: seq<real>, peaks: seq<nat>, j: nat)
    requires ValidPeaks(magnitude, peaks)
  {
    && j < |peaks|
    && (forall i :: 0 <= i < |peaks| ==> magnitude[peaks[i]] <= magnitude[peaks[j]])
    && (forall i :: 0 <= i < j ==> magnitude[peaks[i]] < magnitude[peaks[j]])
  }

  /** At most one position of the peak list is the strongest peak, so the
      selection below is fully determined by the spectrum and the peaks. */
  lemma StrongestPeakUnique(magnitude: seq<real>, peaks: seq<nat>, j1: nat, j2: nat)
    requires ValidPeaks(magnitude, peaks)
    requires IsStrongestPeak(magnitude, peaks, j1) && IsStrongestPeak(magnitude, peaks, j2)
    ensures j1 == j2
  {
    // each is at least as strong as the other, so neither comes first
    assert magnitude[peaks[j1]] == magnitude[peaks[j2]];
  }

  /** Position in the peak list of the peak `detect_peak_frequency` picks. */
  function StrongestPeak(magnitude: seq<real>, peaks: seq<nat>): (j: nat)
    requires ValidPeaks(magnitude, peaks) && |peaks| > 0
    ensures IsStrongestPeak(magnitude, peaks, j)
  {
    ArgMax(PeakMagnitudes(magnitude, peaks))
  }

  /** `detect_peak_frequency`: no frequency when the peak finder found no
      peak, otherwise the centre frequency of the strongest peak's bin (the
      first one in list order when several are equally strong).
      `magnitude` is the spectrum of an `n`-sample frame, so it has
      `n / 2 + 1` bins. */
  function DetectPeakFrequency(magnitude: seq<real>, peaks: seq<nat>, n: nat, rate: real): (r: Option<real>)
    requires n > 0 && rate > 0.0 && |magnitude| == n / 2 + 1
    requires ValidPeaks(magnitude, peaks)
    ensures r.None? <==> |peaks| == 0
    ensures r.Some? ==>
      exists j: nat :: IsStrongestPeak(magnitude, peaks, j) && r.value == BinFrequency(peaks[j], n, rate)
    ensures r.Some? ==> 0.0 <= r.value <= rate / 2.0
  {
    if |peaks| == 0 then None
    else
      var j := StrongestPeak(magnitude, peaks);
      BinFrequencyAtMostNyquist(peaks[j], n, rate);
      Some(BinFrequency(peaks[j], n, rate))
  }
}
