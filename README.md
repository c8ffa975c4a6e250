# Teddy Ruxpin lip-sync controller, modelled in Dafny

`bt_lipsync_min.py` drives an animatronic bear from a looped-back audio
stream. It picks the first PulseAudio/PipeWire monitor device. Then, for every
30 ms block of 480 stereo frames, it:

- averages the two channels to mono;
- takes the RMS of the samples after a gain of 40;
- normalises that RMS against the noise floor 0.015 and clips it to [0, 1];
- drives the mouth motor (direction pin and PWM duty), closing it fully when
  the drive is at or below 0.05;
- blinks the eyes when more than 4 s have passed since the last blink.

On an interrupt or a stream failure it runs a shutdown sequence that sets
every output to rest.

The Dafny project models that control step and its surroundings:

- `config.dfy`, module `Config`: the constants, and the block size 480.
- `envelope.dfy`, module `Envelope`: stereo-to-mono, the mean of squares, the
  square-root relation, and the clipped drive value `MouthVal`.
- `mouth.dfy`, module `Mouth`: Python's truncating `int()`, the duty, the
  0.05 gate, and the whole rms-to-command map `Command`.
- `blink.dfy`, module `Blink`: the blink test, and `Resets`, the history of
  `last_blink` over a run, with the proof that blinks are more than 4 s apart.
- `devices.dfy`, module `Devices`: ASCII lower-casing, substring search, and
  the linear search for the monitor device.
- `actuators.dfy`, module `Actuators`: pin levels, the commands written to
  the hardware, and replaying a command log. It also holds the blink pulse
  and the shutdown sequence as command lists.
- `controller.dfy`, module `Controller`: the class `Lipsync`, which holds the
  pin levels, the PWM duty and `lastBlink` as fields. Its methods are the
  per-block `Step` (split into `DriveMouth` and `MaybeBlink`), `BlinkEyes`,
  `Cleanup` and the loop `Run`. `Session` models `main()` from setup to exit.

Numbers are mathematical reals standing in for the program's floats. The
square root is not computed. The loudness `rms` of a block is an input, and
the predicate `IsBlockRms` requires it to be the non-negative root of the
block's mean square. From that relation the model proves what it needs:
a silent block has rms 0, a block at amplitude 0.5 has rms 20, and the root
is monotone.

The class keeps two ghost records:

- `writes`, every command sent to the pins and the PWM since setup. The
  invariant `Valid()` says the fields are what replaying that log over the
  boot state gives.
- `nows`, every clock reading the loop has taken. `Valid()` says `lastBlink`
  is the last entry of `Resets(start, nows)`.

`BlockWrites` lists the commands one block sends: the mouth direction and
duty of `Command(rms)`, then the blink pulse when a blink is due.
`RunWrites` concatenates them over a run of blocks, each block seeing the
blink timestamp the blocks before it left. `Run` is proved to append exactly
`RunWrites` of the blocks it read, then the shutdown sequence.

Behaviours of the code that the model keeps as written:

- The duty is `int(100 * mouth_val)`, a truncation, not a rounding.
- A monitor device needs at least two input channels, and its lower-cased
  name must contain `monitor`.
- When no monitor device exists, the program exits after the GPIO setup has
  already run (PWM started at duty 0), and outside the `try`/`finally`. So the
  shutdown sequence does not run on that path. `Session` states this: on
  `NoMonitor` no block is read and no command is written after setup.
- The blink drives eyes motor A HIGH and B LOW, then both LOW.

## Model

| member | source | states |
|---|---|---|
| `Config.BlockSamples` | bt_lipsync_min.py:61 | the frames per read are AUDIO_FS * AUDIO_BLOCK_MS / 1000 truncated, which is 480 |
| `Envelope.ToMono` | bt_lipsync_min.py:85 | mono keeps the block length, and each sample is the mean of the two channel samples of its frame |
| `Envelope.SumSquares` | bt_lipsync_min.py:86 | the sum of gained squares over a block is non-negative |
| `Envelope.MeanSquare` | bt_lipsync_min.py:86 | the mean of (sample * GAIN)^2 over a block is non-negative |
| `Envelope.GainedSquareZero` | bt_lipsync_min.py:86 | a gained sample squares to zero iff the sample is zero |
| `Envelope.SumSquaresZero` | bt_lipsync_min.py:86 | the sum of squares is zero iff every mono sample is zero (both directions) |
| `Envelope.MeanSquareZero` | bt_lipsync_min.py:86 | the mean square of a block is zero iff the block is all zero |
| `Envelope.SumSquaresConstant` | bt_lipsync_min.py:86 | a block of constant samples a has sum of squares n * (a * GAIN)^2 |
| `Envelope.MeanSquareConstant` | bt_lipsync_min.py:86 | a block of constant samples a has mean square (a * GAIN)^2 |
| `Envelope.RmsMonotone` | bt_lipsync_min.py:86 | the square root is monotone: a larger mean square never gives a smaller rms |
| `Envelope.SilentBlockRms` | bt_lipsync_min.py:85-86 | an all-zero stereo block has rms 0 |
| `Envelope.MouthVal` | bt_lipsync_min.py:87 | the drive lies in [0, 1]; it is 0 when rms <= THRESH and 1 when rms >= 1; it is positive iff rms > THRESH; in between it is the linear rescaling of rms - THRESH |
| `Envelope.MouthValMonotone` | bt_lipsync_min.py:87 | the drive is monotone non-decreasing in rms |
| `Mouth.Trunc` | bt_lipsync_min.py:88 | `int()` truncates toward zero: floor for non-negative values, ceiling for negative ones |
| `Mouth.TruncMonotone` | bt_lipsync_min.py:88 | truncation is monotone on non-negative values |
| `Mouth.Duty` | bt_lipsync_min.py:88 | the duty is floor(100 * drive) and lies in [0, 100] |
| `Mouth.Gate` | bt_lipsync_min.py:89-96 | direction is HIGH iff drive > 0.05; LOW forces duty 0; HIGH gives the computed duty, which is then in [5, 100]; HIGH iff duty > 0 |
| `Mouth.GateHysteresis` | bt_lipsync_min.py:89-96 | a drive in (0, 0.05] still closes the mouth with duty 0 |
| `Mouth.Command` | bt_lipsync_min.py:87-96 | rms <= THRESH gives (LOW, 0); rms >= 1 gives (HIGH, 100); the mouth opens iff rms > THRESH + 0.05 * (1 - THRESH); the duty lies in [0, 100] |
| `Mouth.CommandMonotone` | bt_lipsync_min.py:87-96 | a louder block never commands a smaller duty and never closes a mouth a quieter block opens |
| `Mouth.SilentBlockCloses` | bt_lipsync_min.py:85-96 | an all-zero block gives rms 0, drive 0 and command (LOW, 0) |
| `Mouth.HalfScaleBlockOpensFully` | bt_lipsync_min.py:85-96 | a block of frames at (0.5, 0.5) gives rms 20, drive 1 and command (HIGH, 100) |
| `Blink.Resets` | bt_lipsync_min.py:98-101 | the history of `last_blink` starts at the start time, grows by at most one entry per poll, and its consecutive entries are more than BLINK_S apart |
| `Blink.PollStep` | bt_lipsync_min.py:98-101 | a poll blinks iff now - last_blink > BLINK_S, and then last_blink becomes now; otherwise it is unchanged; afterwards now - last_blink <= BLINK_S |
| `Blink.ResetsArePolls` | bt_lipsync_min.py:98-101 | every recorded blink time is one of the polled clock readings |
| `Blink.SpacedPairwise` | bt_lipsync_min.py:99-101 | in a history whose consecutive entries are more than BLINK_S apart, any two entries are more than BLINK_S apart |
| `Blink.BlinksApart` | bt_lipsync_min.py:99-101 | any two blinks of a run, and a blink and the start, are more than BLINK_S apart, whatever the clock readings |
| `Blink.ExampleRun` | bt_lipsync_min.py:98-101 | from last_blink = 0, polls at 4.1, 7.9 and 8.3 blink at 4.1 and 8.3 only |
| `Devices.LowerChar` | bt_lipsync_min.py:69 | the result is never an ASCII capital, and it is the same letter as the input up to ASCII case |
| `Devices.LowerCharCaseless` | bt_lipsync_min.py:69 | two characters lower-case to the same character iff they differ at most in ASCII case (both directions) |
| `Devices.Lower` | bt_lipsync_min.py:69 | lower-casing keeps the length and lower-cases each character |
| `Devices.Contains` | bt_lipsync_min.py:69 | the substring test holds iff the pattern occurs at some index of the string |
| `Devices.OccursAtLower` | bt_lipsync_min.py:69 | a pattern without capitals occurs at index i of the lower-cased name iff it occurs there in the name up to ASCII case |
| `Devices.ContainsLowerIgnoresCase` | bt_lipsync_min.py:69 | `pat in name.lower()` holds iff the pattern occurs somewhere in the name up to ASCII case |
| `Devices.IsMonitorIgnoresCase` | bt_lipsync_min.py:69 | a device qualifies iff it has >= 2 input channels and its name contains "monitor" in any mix of ASCII case |
| `Devices.CapitalisedMonitorQualifies` | bt_lipsync_min.py:69 | a stereo device named "Monitor of Built-in Audio" qualifies |
| `Devices.UpperCaseMonitorQualifies` | bt_lipsync_min.py:69 | a stereo device named "USB MONITOR" qualifies |
| `Devices.FindMonitor` | bt_lipsync_min.py:66-75 | the result is the least index of a device with >= 2 input channels whose lower-cased name contains "monitor"; it is None iff no device qualifies |
| `Actuators.ReplayAppend` | bt_lipsync_min.py:42-54 | replaying two command lists in turn equals replaying their concatenation |
| `Actuators.ShutdownIsNeutral` | bt_lipsync_min.py:42-46 | the shutdown commands leave duty 0 and every pin LOW from any prior state |
| `Actuators.BlinkPulseEffect` | bt_lipsync_min.py:49-54 | a blink passes through EYES_A HIGH with EYES_B LOW, and ends with both eye pins LOW and the mouth untouched |
| `Controller.Lipsync.constructor` | bt_lipsync_min.py:60-62 | setup leaves the PWM at duty 0 and the pins at their boot levels, and sets last_blink to the current time |
| `Controller.Lipsync.Emit` | bt_lipsync_min.py:90-95 | one pin write or duty change updates exactly that output and is appended to the log; the duty must lie in [0, 100] |
| `Controller.Lipsync.BlinkEyes` | bt_lipsync_min.py:49-54 | the blink appends the fixed pulse to the log and leaves both eye pins LOW, everything else unchanged |
| `Controller.Lipsync.Cleanup` | bt_lipsync_min.py:42-47 | after cleanup the duty is 0 and MOUTH_DIR, EYES_A and EYES_B are LOW, whatever the state before |
| `Controller.Lipsync.DriveMouth` | bt_lipsync_min.py:87-96 | the mouth outputs become `Command(rms)`, written direction first, then duty; the eyes are untouched |
| `Controller.Lipsync.MaybeBlink` | bt_lipsync_min.py:98-101 | blinks iff now - last_blink > BLINK_S, then sets last_blink to now; otherwise nothing changes; the scheduler history grows by `now` |
| `Controller.Lipsync.Step` | bt_lipsync_min.py:83-105 | one loop iteration: the mouth takes `Command(rms)` (LOW, 0 for a silent block), the blink rule applies, and the command log grows by exactly the writes of the iteration |
| `Controller.RunWritesLength` | bt_lipsync_min.py:82-101 | a run writes two mouth commands per block and one four-write blink pulse per entry it adds to the blink history, and nothing else |
| `Controller.RunWritesDutiesInRange` | bt_lipsync_min.py:88-95 | every duty a run sends to the PWM lies in [0, 100] |
| `Controller.Lipsync.StepBlock` | bt_lipsync_min.py:83-101 | one block read from the stream appends exactly that block's writes (`BlockWrites` at the current blink timestamp) to the log and its clock reading to the readings |
| `Controller.Lipsync.Run` | bt_lipsync_min.py:78-110 | the loop steps through blocks until the input ends (interrupt) or a read fails; it reports a failure iff the input holds one; the log grows by exactly the writes of every block read (mouth direction, duty, and the blink pulse whenever a blink was due), followed by the shutdown sequence; the final state is neutral |
| `Controller.Session` | bt_lipsync_min.py:56-110 | setup leaves duty 0, the boot pin levels and last_blink at the start time; no monitor device iff exit with NoMonitor, and then no block is read, nothing is written after setup and the outputs keep their setup values; otherwise the first monitor is used, the log is exactly the writes of the blocks read followed by the shutdown sequence, and the session ends neutral |

## Left out

- Audio I/O: the sounddevice stream and `sd.query_devices`. The device list and
  the stream's blocks are inputs (`Session`'s `devices` and `stream`); the end
  of the input stands for a keyboard interrupt.
- `np.sqrt` and float rounding: reals replace floats. The rms is an input tied
  to the block by `IsBlockRms`. An empty block is excluded because the stream
  always delivers 480 frames; with no frames numpy would produce NaN.
- `np.squeeze` of a one-frame block: it never arises with 480-frame blocks,
  and it would give the same value.
- GPIO setup, pin numbering, the 500 Hz PWM frequency and `GPIO.cleanup()`.
  Only pin levels and the duty value are modelled. Pin levels at boot are
  parameters, because `GPIO.setup` without an initial value does not write the pin.
- `time.time()`, the blink sleep of BLINK_MS and the LAT_MS pacing sleep: the
  clock readings are inputs, and the sleeps only affect timing.
- Console messages and the process exit status. `Exit` names the three outcomes.
- The `mouth_open` flag: it is written but never read.
- Devices.Lower: lower-cases ASCII letters only; Python's `str.lower` also
  folds non-ASCII letters and can change a string's length.
- Controller.Lipsync.Run: an interrupt is modelled only between iterations.
  An interrupt inside an iteration (for example during the blink sleep) would
  leave a partial state, and `Cleanup` reaches the neutral state from any
  state.
