/** The control loop: actuator state, the per-block step, the eye blink, the
    shutdown sequence, and one whole session from device search to exit. */
module Controller {
  import opened Config
  import opened Actuators
  import opened Envelope
  import opened Mouth
  import opened Blink
  import opened Devices

  /** One result of reading the audio stream: a block of frames (with its
      loudness and the clock reading taken after it), or a stream failure. */
  datatype Read = Block(frames: seq<Frame>, rms: real, now: real) | ReadError

  /** How a session ends: no monitor device (exit status 1, before the stream
      is opened), an interrupt, or a failed stream read. */
  datatype Exit = NoMonitor | Interrupted | StreamFailed

  /** A block as the stream delivers it: the requested number of frames, with
      `rms` the square root of its mean square. */
  ghost predicate WellFormed(r: Read) {
    r.Block? ==> |r.frames| == BlockSamples() && IsBlockRms(r.rms, r.frames)
  }

  /** The clock readings taken over a run of reads: one after each block. */
  function Times(rs: seq<Read>): seq<real> {
    if rs == [] then []
    else
      var r := rs[|rs| - 1];
      Times(rs[..|rs| - 1]) + (if r.Block? then [r.now] else [])
  }

  /** The commands one block sends when the blink timestamp is `last`: the
      mouth direction and duty, then the blink pulse if a blink is due. A
      failed read sends nothing. */
  function BlockWrites(last: real, r: Read): seq<Write> {
    if r.ReadError? then []
    else
      [Output(MouthDir, Command(r.rms).dir), ChangeDuty(Command(r.rms).duty)]
        + (if Fires(last, r.now) then BlinkPulse else [])
  }

  /** The commands a run of reads sends, for a scheduler that started at
      `start` and had already polled at the times `prior`: each block's
      writes, with the blink timestamp left by the reads before it. */
  function RunWrites(start: real, prior: seq<real>, rs: seq<Read>): seq<Write> {
    if rs == [] then []
    else
      var before := rs[..|rs| - 1];
      RunWrites(start, prior, before)
        + BlockWrites(LastBlink(start, prior + Times(before)), rs[|rs| - 1])
  }

  /** The run over the first k + 1 reads of a stream extends the run over
      the first k by read k: its clock reading and its writes. */
  lemma RunPrefixStep(start: real, prior: seq<real>, stream: seq<Read>, k: nat)
    requires k < |stream|
    ensures stream[k].Block? ==> Times(stream[..k + 1]) == Times(stream[..k]) + [stream[k].now]
    ensures RunWrites(start, prior, stream[..k + 1])
         == RunWrites(start, prior, stream[..k]) + BlockWrites(LastBlink(start, prior + Times(stream[..k])), stream[k])
  {
    assert stream[..k + 1][..k] == stream[..k];
  }

  /** Every write of a run is accounted for: two mouth writes per block and
      a four-write blink pulse per entry the run adds to the blink history. */
  lemma {:induction false} RunWritesLength(start: real, prior: seq<real>, rs: seq<Read>)
    ensures |RunWrites(start, prior, rs)|
         == 2 * |Times(rs)| + 4 * (|Resets(start, prior + Times(rs))| - |Resets(start, prior)|)
    decreases |rs|
  {
    if rs == [] {
      assert prior + Times(rs) == prior;
    } else {
      var before := rs[..|rs| - 1];
      var r := rs[|rs| - 1];
      var polls := prior + Times(before);
      RunWritesLength(start, prior, before);
      if r.Block? {
        assert prior + Times(rs) == polls + [r.now];
        PollStep(start, polls, r.now);
      } else {
        assert Times(rs) == Times(before);
      }
    }
  }

  /** Every duty a run sends lies in the range the PWM accepts. */
  lemma {:induction false} RunWritesDutiesInRange(start: real, prior: seq<real>, rs: seq<Read>)
    ensures forall w :: w in RunWrites(start, prior, rs) && w.ChangeDuty? ==> 0 <= w.duty <= 100
    decreases |rs|
  {
    if rs != [] {
      var before := rs[..|rs| - 1];
      RunWritesDutiesInRange(start, prior, before);
    }
  }

  lemma AppendAssociative<T>(a: seq<T>, b: seq<T>, c: seq<T>)
    ensures a + (b + c) == (a + b) + c
  {
  }

  /** One block of a run keeps the clock readings and the log equal to those
      of the run so far. */
  lemma RunInvariantStep(start: real, prior: seq<real>, log: seq<Write>, stream: seq<Read>, k: nat,
                         nowsBefore: seq<real>, writesBefore: seq<Write>,
                         nowsAfter: seq<real>, writesAfter: seq<Write>)
    requires k < |stream| && stream[k].Block?
    requires forall i :: 0 <= i < k ==> stream[i].Block?
    requires nowsBefore == prior + Times(stream[..k])
    requires writesBefore == log + RunWrites(start, prior, stream[..k])
    requires nowsAfter == nowsBefore + [stream[k].now]
    requires writesAfter == writesBefore + BlockWrites(LastBlink(start, nowsBefore), stream[k])
    ensures forall i :: 0 <= i < k + 1 ==> stream[i].Block?
    ensures nowsAfter == prior + Times(stream[..k + 1])
    ensures writesAfter == log + RunWrites(start, prior, stream[..k + 1])
  {
    RunPrefixStep(start, prior, stream, k);
    AppendAssociative(prior, Times(stream[..k]), [stream[k].now]);
    AppendAssociative(log, RunWrites(start, prior, stream[..k]), BlockWrites(LastBlink(start, nowsBefore), stream[k]));
  }

  /** The controller: the actuator outputs and the blink timestamp. */
  class Lipsync {
    var duty: int
    var mouthDir: Level
    var eyesA: Level
    var eyesB: Level
    var lastBlink: real

    /** Actuator state right after setup. */
    ghost const boot: Pins
    /** Clock reading at startup. */
    ghost const start: real
    /** Clock readings taken by the loop so far. */
    ghost var nows: seq<real>
    /** Every command sent to the actuators since setup. */
    ghost var writes: seq<Write>

    function State(): Pins
      reads this
    {
      Pins(duty, mouthDir, eyesA, eyesB)
    }

    /** The outputs are what the commands sent since setup produce, the duty
        is one the PWM accepts, and the blink timestamp is the scheduler's. */
    ghost predicate Valid()
      reads this
    {
      && 0 <= duty <= 100
      && State() == Replay(boot, writes)
      && lastBlink == LastBlink(start, nows)
    }

    /** Setup: the PWM starts at duty 0, the pins keep the levels they had
        (`bootDir`, `bootEyesA`, `bootEyesB`), and the blink timestamp is the
        current time. */
    constructor (now: real, bootDir: Level, bootEyesA: Level, bootEyesB: Level)
      ensures Valid()
      ensures State() == Pins(0, bootDir, bootEyesA, bootEyesB)
      ensures lastBlink == now && start == now
      ensures nows == [] && writes == []
    {
      duty, mouthDir, eyesA, eyesB := 0, bootDir, bootEyesA, bootEyesB;
      lastBlink := now;
      boot := Pins(0, bootDir, bootEyesA, bootEyesB);
      start := now;
      nows := [];
      writes := [];
    }

    /** Send one command to the hardware. The PWM accepts duties in [0, 100] only. */
    method Emit(w: Write)
      requires Valid()
      requires w.ChangeDuty? ==> 0 <= w.duty <= 100
      modifies this
      ensures Valid()
      ensures State() == Apply(old(State()), w)
      ensures writes == old(writes) + [w]
      ensures lastBlink == old(lastBlink) && nows == old(nows)
    {
      match w {
        case ChangeDuty(d) => duty := d;
        case Output(MouthDir, l) => mouthDir := l;
        case Output(EyesA, l) => eyesA := l;
        case Output(EyesB, l) => eyesB := l;
      }
      ReplayAppend(boot, writes, [w]);
      writes := writes + [w];
    }

    /** One blink: eyes motor A on, then both eye pins LOW. */
    method BlinkEyes()
      requires Valid()
      modifies this
      ensures Valid()
      ensures State() == old(State()).(eyesA := Low, eyesB := Low)
      ensures writes == old(writes) + BlinkPulse
      ensures lastBlink == old(lastBlink) && nows == old(nows)
    {
      Emit(Output(EyesA, High));
      Emit(Output(EyesB, Low));
      Emit(Output(EyesA, Low));
      Emit(Output(EyesB, Low));
      assert writes == old(writes) + BlinkPulse;
    }

    /** Shutdown: duty 0 and every pin LOW, whatever the state before. */
    method Cleanup()
      requires Valid()
      modifies this
      ensures Valid()
      ensures State() == Neutral
      ensures writes == old(writes) + Shutdown
      ensures lastBlink == old(lastBlink) && nows == old(nows)
    {
      Emit(ChangeDuty(0));
      Emit(Output(MouthDir, Low));
      Emit(Output(EyesA, Low));
      Emit(Output(EyesB, Low));
      assert writes == old(writes) + Shutdown;
    }

    /** The mouth update for a block of loudness `rms`: direction pin, then duty. */
    method DriveMouth(rms: real) returns (cmd: MouthCommand)
      requires Valid()
      modifies this
      ensures Valid()
      ensures cmd == Command(rms)
      ensures mouthDir == cmd.dir && duty == cmd.duty
      ensures eyesA == old(eyesA) && eyesB == old(eyesB)
      ensures writes == old(writes) + [Output(MouthDir, cmd.dir), ChangeDuty(cmd.duty)]
      ensures lastBlink == old(lastBlink) && nows == old(nows)
    {
      var mouthVal := MouthVal(rms);
      var d := Duty(mouthVal);
      if mouthVal > MouthFloor {
        Emit(Output(MouthDir, High));
        Emit(ChangeDuty(d));
      } else {
        Emit(Output(MouthDir, Low));
        Emit(ChangeDuty(0));
      }
      cmd := MouthCommand(mouthDir, duty);
    }

    /** The blink check for the clock reading `now`. */
    method MaybeBlink(now: real) returns (blinked: bool)
      requires Valid()
      modifies this
      ensures Valid()
      ensures blinked == Fires(old(lastBlink), now)
      ensures lastBlink == (if blinked then now else old(lastBlink))
      ensures now - lastBlink <= BlinkS
      ensures duty == old(duty) && mouthDir == old(mouthDir)
      ensures blinked ==> eyesA == Low && eyesB == Low
      ensures !blinked ==> eyesA == old(eyesA) && eyesB == old(eyesB)
      ensures nows == old(nows) + [now]
      ensures writes == old(writes) + (if blinked then BlinkPulse else [])
    {
      blinked := now - lastBlink > BlinkS;
      if blinked {
        BlinkEyes();
        lastBlink := now;
      }
      PollStep(start, nows, now);
      nows := nows + [now];
    }

    /** One iteration of the loop for a block of loudness `rms`, with the
        clock reading `now` taken after the mouth update. */
    method Step(frames: seq<Frame>, rms: real, now: real) returns (cmd: MouthCommand, blinked: bool)
      requires Valid()
      requires WellFormed(Block(frames, rms, now))
      modifies this
      ensures Valid()
      ensures cmd == Command(rms)
      ensures Silent(frames) ==> cmd == MouthCommand(Low, 0)
      ensures mouthDir == cmd.dir && duty == cmd.duty
      ensures blinked == Fires(old(lastBlink), now)
      ensures lastBlink == (if blinked then now else old(lastBlink))
      ensures blinked ==> eyesA == Low && eyesB == Low
      ensures !blinked ==> eyesA == old(eyesA) && eyesB == old(eyesB)
      ensures now - lastBlink <= BlinkS
      ensures nows == old(nows) + [now]
      ensures writes == old(writes) + [Output(MouthDir, cmd.dir), ChangeDuty(cmd.duty)]
                          + (if blinked then BlinkPulse else [])
    {
      if Silent(frames) {
        SilentBlockCloses(frames, rms);
      }
      cmd := DriveMouth(rms);
      blinked := MaybeBlink(now);
    }

    /** `Step` for one block read from the stream, stated with `BlockWrites`. */
    method StepBlock(r: Read)
      requires Valid()
      requires r.Block? && WellFormed(r)
      modifies this
      ensures Valid()
      ensures nows == old(nows) + [r.now]
      ensures writes == old(writes) + BlockWrites(LastBlink(start, old(nows)), r)
    {
      var cmd, blinked := Step(r.frames, r.rms, r.now);
    }

    /** The loop: one step per block until the stream runs out (an interrupt)
        or a read fails, then the shutdown sequence. */
    method Run(stream: seq<Read>) returns (exit: Exit, steps: nat)
      requires Valid()
      requires forall i :: 0 <= i < |stream| ==> WellFormed(stream[i])
      modifies this
      ensures Valid()
      ensures State() == Neutral
      ensures steps <= |stream|
      ensures forall i :: 0 <= i < steps ==> stream[i].Block?
      ensures steps < |stream| ==> stream[steps].ReadError?
      ensures exit != NoMonitor
      ensures exit == StreamFailed <==> exists i :: 0 <= i < |stream| && stream[i].ReadError?
      ensures nows == old(nows) + Times(stream[..steps])
      ensures writes == old(writes) + RunWrites(start, old(nows), stream[..steps]) + Shutdown
    {
      steps := 0;
      while steps < |stream| && stream[steps].Block?
        invariant steps <= |stream|
        invariant Valid()
        invariant forall i :: 0 <= i < steps ==> stream[i].Block?
        invariant nows == old(nows) + Times(stream[..steps])
        invariant writes == old(writes) + RunWrites(start, old(nows), stream[..steps])
      {
        ghost var nowsBefore, writesBefore := nows, writes;
        StepBlock(stream[steps]);
        RunInvariantStep(start, old(nows), old(writes), stream, steps, nowsBefore, writesBefore, nows, writes);
        steps := steps + 1;
      }
      exit := if steps < |stream| then StreamFailed else Interrupted;
      Cleanup();
    }
  }

  /** A whole run of the program: setup, device search, and, when a monitor
      device exists, the loop over `stream` followed by the shutdown sequence. */
  method Session(devices: seq<Device>, bootNow: real, bootDir: Level, bootEyesA: Level, bootEyesB: Level,
                 stream: seq<Read>)
    returns (ctl: Lipsync, monitorIdx: Option<nat>, exit: Exit, steps: nat)
    requires forall i :: 0 <= i < |stream| ==> WellFormed(stream[i])
    ensures fresh(ctl) && ctl.Valid()
    ensures ctl.boot == Pins(0, bootDir, bootEyesA, bootEyesB) && ctl.start == bootNow
    ensures monitorIdx.Some? ==>
      && monitorIdx.value < |devices|
      && IsMonitor(devices[monitorIdx.value])
      && forall j :: 0 <= j < monitorIdx.value ==> !IsMonitor(devices[j])
    ensures exit == NoMonitor <==> forall j :: 0 <= j < |devices| ==> !IsMonitor(devices[j])
    ensures exit == NoMonitor <==> monitorIdx.None?
    ensures exit == NoMonitor ==> steps == 0 && ctl.nows == [] && ctl.writes == []
    ensures exit == NoMonitor ==> ctl.State() == Pins(0, bootDir, bootEyesA, bootEyesB)
    ensures exit != NoMonitor ==> ctl.State() == Neutral
    ensures steps <= |stream|
    ensures forall i :: 0 <= i < steps ==> stream[i].Block?
    ensures exit != NoMonitor && steps < |stream| ==> stream[steps].ReadError?
    ensures exit != NoMonitor ==> ctl.nows == Times(stream[..steps])
    ensures exit != NoMonitor ==> ctl.writes == RunWrites(bootNow, [], stream[..steps]) + Shutdown
    ensures exit == StreamFailed <==> monitorIdx.Some? && exists i :: 0 <= i < |stream| && stream[i].ReadError?
  {
    ctl := new Lipsync(bootNow, bootDir, bootEyesA, bootEyesB);
    monitorIdx := FindMonitor(devices);
    steps := 0;
    if monitorIdx.None? {
      exit := NoMonitor;
      return;
    }
    exit, steps := ctl.Run(stream);
    assert [] + RunWrites(bootNow, [], stream[..steps]) == RunWrites(bootNow, [], stream[..steps]);
  }
}
