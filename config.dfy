/** Tuning constants of the lip-sync controller and the block size derived from them. */
module Config {

  /** RMS level (after gain) at or below which the mouth drive is zero. */
  const Thresh: real := 0.015

  /** Gain applied to every mono sample before squaring. */
  const Gain: real := 40.0

  /** Drive value at or below which the mouth is forced closed. */
  const MouthFloor: real := 0.05

  /** Blink period, in seconds. */
  const BlinkS: real := 4.0

  /** Duration of one audio block, in milliseconds. */
  const AudioBlockMs: nat := 30

  /** Capture sample rate, in frames per second. */
  const AudioFs: nat := 16000

  /** Frames requested from the stream per read: the sample count of
      AudioBlockMs milliseconds at AudioFs, truncated to a whole number. */
  function BlockSamples(): (n: nat)
    ensures n * 1000 <= AudioFs * AudioBlockMs < (n + 1) * 1000
    ensures n == 480
  {
    AudioFs * AudioBlockMs / 1000
  }
}
