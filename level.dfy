/** Loudness of a frame, as `calculate_decibels` (b.py) computes it.

    Floating-point square root and base-10 logarithm are not modelled: the
    square root and logarithm the program uses are parameters. The branch on
    the root-mean-square amplitude is what is modelled exactly. */
module Level {

  /** Reference pressure of 20 micropascals. */
  const RefPressure: real := 0.00002
  /** Level reported for a frame whose RMS amplitude is not positive. */
  const SilenceFloorDb: real := -100.0

  /** What a square root must satisfy on the non-negative reals: zero at
      zero, and the positive number whose square is `x` for positive `x`. */
  ghost predicate IsSquareRoot(sqrt: real -> real)
  {
    && sqrt(0.0) == 0.0
    && forall x :: 0.0 < x ==> 0.0 < sqrt(x) && sqrt(x) * sqrt(x) == x
  }

  /** Sum of the squared samples (the energy of the frame). */
  function SumSquares(audio: seq<real>): (e: real)
    ensures e >= 0.0
  {
    if |audio| == 0 then 0.0
    else SumSquares(audio[..|audio| - 1]) + audio[|audio| - 1] * audio[|audio| - 1]
  }

  /** `np.mean(audio_data**2)` of a non-empty frame. */
  function MeanSquare(audio: seq<real>): (m: real)
    requires |audio| > 0
    ensures m >= 0.0
  {
    SumSquares(audio) / |audio| as real
  }

  /** `calculate_decibels`: 20·log10(rms / 20 µPa) when the RMS amplitude is
      positive, and the -100 dB floor otherwise. The mean of an empty frame
      is NaN in the program, and NaN is not positive, so an empty frame
      takes the floor as well. */
  function CalculateDecibels(audio: seq<real>, sqrt: real -> real, log10: real -> real): (db: real)
    ensures |audio| == 0 ==> db == SilenceFloorDb
    ensures |audio| > 0 && sqrt(MeanSquare(audio)) <= 0.0 ==> db == SilenceFloorDb
    ensures |audio| > 0 && sqrt(MeanSquare(audio)) > 0.0 ==>
      db == 20.0 * log10(sqrt(MeanSquare(audio)) / RefPressure)
  {
    if |audio| == 0 then SilenceFloorDb
    else
      var rms := sqrt(MeanSquare(audio));
      if rms > 0.0 then 20.0 * log10(rms / RefPressure) else SilenceFloorDb
  }

  /** A frame of all-zero samples carries no energy. */
  lemma {:induction false} ZeroFrameHasNoEnergy(audio: seq<real>)
    requires forall i :: 0 <= i < |audio| ==> audio[i] == 0.0
    ensures SumSquares(audio) == 0.0
  {
    if |audio| > 0 {
      ZeroFrameHasNoEnergy(audio[..|audio| - 1]);
    }
  }

  /** Digital silence reads exactly -100 dB. */
  lemma SilentFrameIsAtFloor(audio: seq<real>, sqrt: real -> real, log10: real -> real)
    requires IsSquareRoot(sqrt)
    requires forall i :: 0 <= i < |audio| ==> audio[i] == 0.0
    ensures CalculateDecibels(audio, sqrt, log10) == SilenceFloorDb
  {
    if |audio| > 0 {
      ZeroFrameHasNoEnergy(audio);
      assert MeanSquare(audio) == 0.0;
    }
  }

  /** With a true square root, the logarithm branch is taken exactly when
      the frame carries energy; an all-zero frame carries none. */
  lemma LogBranchIffEnergy(audio: seq<real>, sqrt: real -> real)
    requires IsSquareRoot(sqrt) && |audio| > 0
    ensures sqrt(MeanSquare(audio)) > 0.0 <==> SumSquares(audio) > 0.0
  {
  }
}
