/** The actuator outputs: three GPIO pins and the mouth PWM duty, and the
    sequence of commands written to them. */
module Actuators {

  datatype Level = Low | High

  /** The output pins the controller drives directly (the PWM pin is driven
      through its duty cycle). */
  datatype Pin = MouthDir | EyesA | EyesB

  /** One command sent to the hardware. */
  datatype Write = Output(pin: Pin, level: Level) | ChangeDuty(duty: int)

  /** The observable actuator state. */
  datatype Pins = Pins(duty: int, mouthDir: Level, eyesA: Level, eyesB: Level)

  /** Every actuator at rest: no PWM drive, every pin LOW. */
  const Neutral: Pins := Pins(0, Low, Low, Low)

  /** The pin writes of one eye blink: eyes motor A forward, then both off. */
  const BlinkPulse: seq<Write> :=
    [Output(EyesA, High), Output(EyesB, Low), Output(EyesA, Low), Output(EyesB, Low)]

  /** The writes of the shutdown sequence. */
  const Shutdown: seq<Write> :=
    [ChangeDuty(0), Output(MouthDir, Low), Output(EyesA, Low), Output(EyesB, Low)]

  /** The state after one write: the written output takes the new value. */
  function Apply(p: Pins, w: Write): Pins {
    match w
    case ChangeDuty(d) => p.(duty := d)
    case Output(MouthDir, l) => p.(mouthDir := l)
    case Output(EyesA, l) => p.(eyesA := l)
    case Output(EyesB, l) => p.(eyesB := l)
  }

  /** The state after a sequence of writes, applied in order. */
  function Replay(p: Pins, ws: seq<Write>): Pins
    decreases |ws|
  {
    if ws == [] then p else Replay(Apply(p, ws[0]), ws[1..])
  }

  /** Replaying two sequences one after the other is replaying their concatenation. */
  lemma {:induction false} ReplayAppend(p: Pins, a: seq<Write>, b: seq<Write>)
    ensures Replay(p, a + b) == Replay(Replay(p, a), b)
    decreases |a|
  {
    if a != [] {
      assert (a + b)[1..] == a[1..] + b;
      ReplayAppend(Apply(p, a[0]), a[1..], b);
    } else {
      assert a + b == b;
    }
  }

  /** The last write to a pin decides its level: once the last write to every
      output is known, the prior state does not matter. */
  lemma ShutdownIsNeutral(p: Pins)
    ensures Replay(p, Shutdown) == Neutral
  {
  }

  /** A blink raises eyes motor A with B low, and leaves both eye pins LOW and
      the mouth untouched. */
  lemma BlinkPulseEffect(p: Pins)
    ensures Replay(p, BlinkPulse[..2]).eyesA == High && Replay(p, BlinkPulse[..2]).eyesB == Low
    ensures Replay(p, BlinkPulse) == p.(eyesA := Low, eyesB := Low)
  {
    var raised := BlinkPulse[..2];
    assert raised == [Output(EyesA, High), Output(EyesB, Low)];
    assert raised[1..][1..] == [];
    assert Replay(p, raised) == Replay(Apply(Apply(p, raised[0]), raised[1..][0]), raised[1..][1..]);
    assert BlinkPulse[1..][1..][1..][1..] == [];
  }
}
