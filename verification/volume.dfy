/**
  The energy-based voice activity detector of the audio module: a smoothed
  short-term volume, an adaptive noise floor, and the two thresholds that
  give the detector its hysteresis. Java `double`s are modelled as `real`.
 */
module Volume {

  /** Difference between current and background volume above which audio is speech. */
  const VolumeThreshold: real := 250.0

  /** Difference below which an ongoing recording is considered over. */
  const OffsetThreshold: real := VolumeThreshold / 10.0

  /** Minimum duration, in milliseconds, before a recording is added to the dialogue state. */
  const MinDuration: int := 300

  /** Fraction of the gap to a louder sample that the noise floor closes in one step. */
  const FloorDrift: real := 0.003

  function Min(a: real, b: real): real { if a <= b then a else b }
  function Max(a: real, b: real): real { if a <= b then b else a }

  /**
    New smoothed volume after the energy sample `rms`: it lies between the
    previous volume and the sample, and the gap to the sample shrinks to
    two thirds.
   */
  function Smooth(currentVolume: real, rms: real): (r: real)
    ensures Min(currentVolume, rms) <= r <= Max(currentVolume, rms)
    ensures rms - r == (rms - currentVolume) * 2.0 / 3.0
  {
    (currentVolume * 2.0 + rms) / 3.0
  }

  /**
    New noise floor after the energy sample `rms`: a quieter sample becomes the
    floor at once; a louder one pulls the floor up by a small fraction of the
    gap, so the floor stays between its old value and the sample.
   */
  function NextBackground(backgroundVolume: real, rms: real): (r: real)
    ensures rms < backgroundVolume ==> r == rms
    ensures backgroundVolume <= rms ==> backgroundVolume <= r <= rms
    ensures backgroundVolume <= rms ==> rms - r == (rms - backgroundVolume) * (1.0 - FloorDrift)
    ensures Min(backgroundVolume, rms) <= r <= Max(backgroundVolume, rms)
    ensures r <= rms
  {
    if rms < backgroundVolume then rms
    else backgroundVolume + (rms - backgroundVolume) * FloorDrift
  }

  /** The detector opens a recording when the difference exceeds the threshold. */
  predicate Onset(difference: real) { difference > VolumeThreshold }

  /** The detector closes a recording when the difference falls below a tenth of it. */
  predicate Offset(difference: real) { difference < OffsetThreshold }

  /** Only a sample below the floor can move the floor below its old value. */
  lemma FloorFallsOnlyBySnapping(backgroundVolume: real, rms: real)
    ensures NextBackground(backgroundVolume, rms) < backgroundVolume
            <==> rms < backgroundVolume
  {
  }
}
