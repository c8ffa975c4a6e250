/** Envelope extraction: one captured stereo block to a loudness value and a
    normalised mouth drive in [0, 1]. */
module Envelope {
  import opened Config

  /** One captured stereo frame. */
  datatype Frame = Frame(left: real, right: real)

  /** Stereo to mono: one sample per frame, the mean of its two channels. */
  function ToMono(block: seq<Frame>): (mono: seq<real>)
    ensures |mono| == |block|
    ensures forall i :: 0 <= i < |block| ==> mono[i] == (block[i].left + block[i].right) / 2.0
  {
    if block == [] then []
    else [(block[0].left + block[0].right) / 2.0] + ToMono(block[1..])
  }

  /** The square of one sample after the gain. */
  function GainedSquare(x: real): (e: real)
    ensures e >= 0.0
  {
    (x * Gain) * (x * Gain)
  }

  /** Squaring is strictly increasing on the non-negative reals. */
  lemma SquareStrictlyMonotone(a: real, b: real)
    requires 0.0 <= a < b
    ensures a * a < b * b
  {
    ProductPositive(b - a, b + a);
    assert (b - a) * (b + a) == b * b - a * a;
  }

  lemma ProductPositive(a: real, b: real)
    requires a > 0.0 && b > 0.0
    ensures a * b > 0.0
  {
  }

  /** A gained sample squares to zero only when the sample is zero. */
  lemma GainedSquareZero(x: real)
    ensures GainedSquare(x) == 0.0 <==> x == 0.0
  {
    var g := x * Gain;
    if g > 0.0 {
      SquareStrictlyMonotone(0.0, g);
    } else if g < 0.0 {
      SquareStrictlyMonotone(0.0, -g);
      assert (-g) * (-g) == g * g;
    }
  }

  /** Sum over the block of (sample * Gain)^2. */
  function SumSquares(mono: seq<real>): (s: real)
    ensures s >= 0.0
  {
    if mono == [] then 0.0 else GainedSquare(mono[0]) + SumSquares(mono[1..])
  }

  /** The mean of (sample * Gain)^2 over a non-empty block. */
  function MeanSquare(mono: seq<real>): (m: real)
    requires |mono| > 0
    ensures m >= 0.0
  {
    SumSquares(mono) / (|mono| as real)
  }

  /** `rms` is the non-negative square root of the mean square `ms`. */
  ghost predicate IsRms(rms: real, ms: real) {
    rms >= 0.0 && rms * rms == ms
  }

  /** The loudness of a stereo block, as the control loop sees it. */
  ghost predicate IsBlockRms(rms: real, block: seq<Frame>) {
    |block| > 0 && IsRms(rms, MeanSquare(ToMono(block)))
  }

  /** A block is silent when every sample of both channels is zero. */
  ghost predicate Silent(block: seq<Frame>) {
    forall i :: 0 <= i < |block| ==> block[i] == Frame(0.0, 0.0)
  }

  /** The block's sum of squares is zero exactly when every mono sample is zero. */
  lemma {:induction false} SumSquaresZero(mono: seq<real>)
    ensures SumSquares(mono) == 0.0 <==> forall i :: 0 <= i < |mono| ==> mono[i] == 0.0
    decreases |mono|
  {
    if mono != [] {
      SumSquaresZero(mono[1..]);
      GainedSquareZero(mono[0]);
      if SumSquares(mono) == 0.0 {
        forall i | 0 <= i < |mono| ensures mono[i] == 0.0 {
          if i > 0 { assert mono[i] == mono[1..][i - 1]; }
        }
      }
    }
  }

  /** The mean square of a block is zero exactly when the mono block is all zero. */
  lemma MeanSquareZero(mono: seq<real>)
    requires |mono| > 0
    ensures MeanSquare(mono) == 0.0 <==> forall i :: 0 <= i < |mono| ==> mono[i] == 0.0
  {
    SumSquaresZero(mono);
  }

  /** A block whose mono samples all equal `a` has sum of squares |mono| * (a * Gain)^2. */
  lemma {:induction false} SumSquaresConstant(mono: seq<real>, a: real)
    requires forall i :: 0 <= i < |mono| ==> mono[i] == a
    ensures SumSquares(mono) == (|mono| as real) * GainedSquare(a)
    decreases |mono|
  {
    if mono != [] {
      SumSquaresConstant(mono[1..], a);
    }
  }

  /** A block whose mono samples all equal `a` has mean square (a * Gain)^2. */
  lemma MeanSquareConstant(mono: seq<real>, a: real)
    requires |mono| > 0
    requires forall i :: 0 <= i < |mono| ==> mono[i] == a
    ensures MeanSquare(mono) == GainedSquare(a)
  {
    SumSquaresConstant(mono, a);
  }

  /** The square root is monotone: a louder block never has a smaller rms. */
  lemma RmsMonotone(r1: real, m1: real, r2: real, m2: real)
    requires IsRms(r1, m1) && IsRms(r2, m2) && m1 <= m2
    ensures r1 <= r2
  {
    if r1 > r2 {
      SquareStrictlyMonotone(r2, r1);
      assert false;
    }
  }

  /** A silent block has rms 0. */
  lemma SilentBlockRms(block: seq<Frame>, rms: real)
    requires Silent(block)
    requires IsBlockRms(rms, block)
    ensures rms == 0.0
  {
    var mono := ToMono(block);
    assert forall i :: 0 <= i < |mono| ==> mono[i] == 0.0;
    MeanSquareZero(mono);
    if rms > 0.0 {
      SquareStrictlyMonotone(0.0, rms);
    }
  }

  /** np.clip on [lo, hi]. */
  function Clip(x: real, lo: real, hi: real): real
    requires lo <= hi
  {
    if x < lo then lo else if x > hi then hi else x
  }

  /** The mouth drive: rms above the noise floor, rescaled so that an rms of 1
      gives full drive, and clipped to [0, 1]. */
  function MouthVal(rms: real): (v: real)
    ensures 0.0 <= v <= 1.0
    ensures rms <= Thresh ==> v == 0.0
    ensures rms >= 1.0 ==> v == 1.0
    ensures v > 0.0 <==> rms > Thresh
    ensures Thresh < rms < 1.0 ==> v * (1.0 - Thresh) == rms - Thresh
  {
    Clip((rms - Thresh) / (1.0 - Thresh), 0.0, 1.0)
  }

  /** The drive never decreases as the rms grows. */
  lemma MouthValMonotone(r1: real, r2: real)
    requires r1 <= r2
    ensures MouthVal(r1) <= MouthVal(r2)
  {
  }
}
