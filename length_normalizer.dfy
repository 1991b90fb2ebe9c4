/** The program's core is one class, `UrbanSoundPreprocessor`, of which
    three methods are modelled. This module holds its clip normaliser
    (`pad_or_truncate`) and the configuration constants that fix the clip
    length. */
module LengthNormalizer {

  /** Sample rate every clip is resampled to on load, in Hz. */
  const TargetSr: nat := 16000

  /** Length every clip is cut or padded to, in seconds. */
  const AudioLength: real := 4.0

  /** Python's `int(x)` on a number: truncation toward zero. */
  function Truncate(x: real): (r: int)
    ensures x >= 0.0 ==> r as real <= x < r as real + 1.0
    ensures x < 0.0 ==> r as real - 1.0 < x <= r as real
  {
    if x >= 0.0 then x.Floor else -((-x).Floor)
  }

  /** `target_samples = int(target_length * TARGET_SR)`. */
  function TargetSamples(targetLength: real): (n: int)
    ensures 0.0 <= targetLength ==>
      0 <= n && n as real <= targetLength * TargetSr as real < n as real + 1.0
  {
    Truncate(targetLength * TargetSr as real)
  }

  /** The sample count of every normalised clip in the configured run. */
  const ClipSamples: nat := 64000

  /** `int(AUDIO_LENGTH * TARGET_SR)`: the configured 4.0 s at 16000 Hz give
      exactly the 64000 samples of a normalised clip. */
  lemma ClipSamplesValue()
    ensures TargetSamples(AudioLength) == ClipSamples
  {
  }

  /** `k` samples of silence. */
  function Zeros(k: nat): (z: seq<real>)
    ensures |z| == k && forall i :: 0 <= i < k ==> z[i] == 0.0
  {
    seq(k, _ => 0.0)
  }

  /** A longer clip keeps its centre window of `targetSamples` samples, a
      shorter one is padded with zeros at the end, one of exactly the
      target length is returned as it is. */
  function PadOrTruncate(audio: seq<real>, targetSamples: nat): (r: seq<real>)
    ensures |r| == targetSamples
  {
    if |audio| > targetSamples then
      var start := (|audio| - targetSamples) / 2;
      audio[start..start + targetSamples]
    else if |audio| < targetSamples then
      audio + Zeros(targetSamples - |audio|)
    else
      audio
  }

  /** Truncation is centred: whatever head `h` is dropped such that the tail
      dropped is `h` or one more, the output is exactly the window after `h`.
      So the kept window is the balanced one, with the odd sample dropped at
      the tail (floor division). */
  lemma CentredTruncation(audio: seq<real>, targetSamples: nat, h: nat)
    requires targetSamples < |audio|
    requires h <= |audio| - targetSamples - h <= h + 1
    ensures forall i :: 0 <= i < targetSamples ==>
      PadOrTruncate(audio, targetSamples)[i] == audio[h + i]
  {
  }

  /** The floor-division head `(len - target) // 2` is balanced: the tail
      dropped after it is the same or one sample more. So the premise of
      `CentredTruncation` can always be met, by this head. */
  lemma TruncationBalanced(audio: seq<real>, targetSamples: nat)
    requires targetSamples < |audio|
    ensures var h := (|audio| - targetSamples) / 2;
      h <= |audio| - targetSamples - h <= h + 1 &&
      PadOrTruncate(audio, targetSamples) == audio[h..h + targetSamples]
  {
  }

  /** Padding goes at the tail only: the input is a prefix of the output and
      every added sample is zero. */
  lemma PaddingAtTail(audio: seq<real>, targetSamples: nat)
    requires |audio| <= targetSamples
    ensures PadOrTruncate(audio, targetSamples)[..|audio|] == audio
    ensures forall i :: |audio| <= i < targetSamples ==>
      PadOrTruncate(audio, targetSamples)[i] == 0.0
  {
  }

  /** A clip of exactly the target length passes through unchanged. */
  lemma ExactLengthUnchanged(audio: seq<real>)
    ensures PadOrTruncate(audio, |audio|) == audio
  {
  }

  /** Normalising twice is normalising once. */
  lemma Idempotent(audio: seq<real>, targetSamples: nat)
    ensures PadOrTruncate(PadOrTruncate(audio, targetSamples), targetSamples)
         == PadOrTruncate(audio, targetSamples)
  {
  }

  /** Every output sample is an input sample or a padding zero: a silent clip
      stays silent. */
  lemma SamplesComeFromInput(audio: seq<real>, targetSamples: nat)
    ensures forall i :: 0 <= i < targetSamples ==>
      PadOrTruncate(audio, targetSamples)[i] in audio ||
      PadOrTruncate(audio, targetSamples)[i] == 0.0
  {
  }
}
