/** The mouth driver: a drive value in [0, 1] to a direction level and a PWM
    duty percentage, gated at MouthFloor. */
module Mouth {
  import opened Config
  import opened Actuators
  import opened Envelope

  /** Python's int() on a number: truncation toward zero. */
  function Trunc(x: real): (n: int)
    ensures 0.0 <= x ==> n as real <= x < n as real + 1.0
    ensures x < 0.0 ==> n as real - 1.0 < x <= n as real
  {
    if x >= 0.0 then x.Floor else -((-x).Floor)
  }

  /** The duty computed from the drive value, before the gate. */
  function Duty(mouthVal: real): (d: int)
    requires 0.0 <= mouthVal <= 1.0
    ensures 0 <= d <= 100
    ensures d as real <= 100.0 * mouthVal < d as real + 1.0
  {
    Trunc(100.0 * mouthVal)
  }

  /** What one block commands: the level of the direction pin and the PWM duty. */
  datatype MouthCommand = MouthCommand(dir: Level, duty: int)

  /** The gate: above MouthFloor the mouth is driven with the truncated duty;
      at or below it, direction LOW and no drive at all. */
  function Gate(mouthVal: real): (c: MouthCommand)
    requires 0.0 <= mouthVal <= 1.0
    ensures c.dir == High <==> mouthVal > MouthFloor
    ensures c.dir == Low ==> c.duty == 0
    ensures c.dir == High ==> c.duty == Duty(mouthVal) && 5 <= c.duty <= 100
    ensures c.dir == High <==> c.duty > 0
  {
    if mouthVal > MouthFloor then MouthCommand(High, Duty(mouthVal)) else MouthCommand(Low, 0)
  }

  /** The command for one block of loudness `rms`. */
  function Command(rms: real): (c: MouthCommand)
    ensures 0 <= c.duty <= 100
    ensures rms <= Thresh ==> c == MouthCommand(Low, 0)
    ensures rms >= 1.0 ==> c == MouthCommand(High, 100)
    ensures c.dir == High <==> rms > Thresh + MouthFloor * (1.0 - Thresh)
  {
    Gate(MouthVal(rms))
  }

  /** Truncation is monotone. */
  lemma TruncMonotone(x: real, y: real)
    requires 0.0 <= x <= y
    ensures Trunc(x) <= Trunc(y)
  {
  }

  /** A louder block never commands a smaller duty, and never closes a mouth
      that a quieter block opens. */
  lemma CommandMonotone(r1: real, r2: real)
    requires r1 <= r2
    ensures Command(r1).duty <= Command(r2).duty
    ensures Command(r1).dir == High ==> Command(r2).dir == High
  {
  }

  /** A small but non-zero drive is still gated shut. */
  lemma GateHysteresis(mouthVal: real)
    requires 0.0 < mouthVal <= MouthFloor
    ensures Gate(mouthVal) == MouthCommand(Low, 0)
  {
  }

  /** A silent block closes the mouth. */
  lemma SilentBlockCloses(block: seq<Frame>, rms: real)
    requires Silent(block)
    requires IsBlockRms(rms, block)
    ensures rms == 0.0 && MouthVal(rms) == 0.0
    ensures Command(rms) == MouthCommand(Low, 0)
  {
    SilentBlockRms(block, rms);
  }

  /** A block with both channels at amplitude 0.5 has rms 20 after the gain of
      40 and opens the mouth fully. */
  lemma HalfScaleBlockOpensFully(block: seq<Frame>, rms: real)
    requires forall i :: 0 <= i < |block| ==> block[i] == Frame(0.5, 0.5)
    requires IsBlockRms(rms, block)
    ensures rms == 20.0 && MouthVal(rms) == 1.0
    ensures Command(rms) == MouthCommand(High, 100)
  {
    var mono := ToMono(block);
    MeanSquareConstant(mono, 0.5);
    assert rms * rms == 400.0;
    if rms < 20.0 {
      SquareStrictlyMonotone(rms, 20.0);
    } else if rms > 20.0 {
      SquareStrictlyMonotone(20.0, rms);
    }
  }
}
