# Motion-sensor illumination, modelled in Dafny

The program drives two PWM-dimmed LEDs (pins 18 and 13) from a motion
sensor. `flashing_pattern.js` defines the flashing patterns. Each periodic
pattern (Linear, LinearAndKeep, Parabola1, Parabola2, Flash3, Half, SyncMusic)
computes a brightness `calc(time)` from its phase. Every 15 ms its interval
timer writes `Math.round(calc(time))` to its pin and advances the phase by 15
modulo the period. `On` and `Off` write a constant. `index.js` holds:

- a table of five scenes, each a pair of patterns (the `Illumination` class);
- `illuminationStart`/`illuminationStop`, which also broadcast a `music`
  notification;
- the sensor loop. It samples every 15 ms, debounces a detection for 3 s, and
  counts detections up to 40. At every 10th detection it switches to the next
  scene, and it resets the count after 20 s without a detection.

The project has eight modules:

- `Wrappers` (wrappers.dfy): the `Option` datatype used for the current pair.
- `Waveforms` (waveforms.dfy): every `calc` as a pure function over exact
  rationals, JavaScript's `%` (`JsRem`) and `Math.round` (`Round`).
- `Patterns` (patterns.dfy): the pattern object as a class. It has the
  normalised offset, the phase clock and the running flag, with `Start`,
  `Stop` and one interval firing, `Tick`.
- `Effects` (effects.dfy): the observable output. One log records PWM writes
  and `music` notifications in order.
- `Scenes` (scenes.dfy): the scene table as values.
- `Illuminations` (illumination.dfy): the `Illumination` class. It holds the
  ten pattern instances and the current pair, with `start(i)` and `stop()`.
- `Trigger` (trigger.dfy): the sampling state machine as pure step functions
  over (`level`, `readLock`, reset pending, current scene), with their
  effects.
- `Lighting` (lighting.dfy): the module-level state of `index.js` as a class.
  It has one method per callback: a sample, the unlock timeout, the reset
  timeout, a pattern's interval, and SIGINT. `Sample`, `Detected`,
  `UnlockFires` and `ResetFires` are proved against the matching step
  function of `Trigger`; `Count` states the counting branch of `SampleStep`
  directly. Every method also states what becomes of each
  pattern's phase clock.

Linear's slope 2·PWM_MAX/P reaches exactly PWM_MAX at P/2 (`LinearEnds`).
LinearAndKeep's descent `3·PWM_MAX − slope·t` stays within [0, PWM_MAX] on its
quarter (`LinearAndKeepInRange`).
Nothing in the code rejects a non-positive period or an out-of-range offset.
A period of 0 makes JavaScript compute NaN, and the model does not admit it.

## Model

| member | source | states |
|---|---|---|
| Waveforms.JsRem | flashing_pattern.js:39 | JavaScript's `%`: the remainder takes the dividend's sign, lies in [0, b) for a non-negative dividend (where it equals the mathematical remainder) and in (−b, 0] for a negative one, and differs from the dividend by a multiple of b |
| Waveforms.Round | flashing_pattern.js:46 | `Math.round` returns the integer r with r − ½ ≤ x < r + ½ (halves round up) |
| Waveforms.RoundInRange | flashing_pattern.js:46 | rounding an intensity in [0, MAX] gives a duty cycle in [0, PWM_MAX] |
| Waveforms.LinearCalc | flashing_pattern.js:63-67 | Linear's calc: slope·t below P/2, then 2·PWM_MAX − slope·t; its properties are the lemmas LinearInRange, LinearEnds, LinearRisesThenFalls and LinearSymmetric |
| Waveforms.LinearAndKeepCalc | flashing_pattern.js:77-87 | LinearAndKeep's calc on its four quarters; its properties are LinearAndKeepInRange, LinearAndKeepPlateaus and LinearAndKeepDescentMeets |
| Waveforms.Parabola1Calc | flashing_pattern.js:106-108 | Parabola1's calc −PWM_MAX·t·(t − P)/(P/2)²; its properties are Parabola1InRange and Parabola1Shape |
| Waveforms.Parabola2Calc | flashing_pattern.js:117-119 | Parabola2's calc PWM_MAX·(t/(P/2) − 1)²; its properties are Parabola2InRange and Parabola2Shape |
| Waveforms.Flash3Calc | flashing_pattern.js:134-139 | Flash3's calc, PWM_MAX inside the three windows and 0 elsewhere; its properties are Flash3Levels and Flash3WindowsDisjoint |
| Waveforms.HalfCalc | flashing_pattern.js:148-150 | Half's calc; its property is HalfIsSquare |
| Waveforms.SyncMusicCalc | flashing_pattern.js:162-180 | SyncMusic's piecewise calc over its sub-patterns; its properties are SyncMusicPiece, SyncMusicLandmarks and SyncMusicInRange |
| Waveforms.LinearInRange | flashing_pattern.js:57-67 | Linear's calc lies in [0, PWM_MAX] on [0, P) |
| Waveforms.LinearEnds | flashing_pattern.js:57-67 | Linear's calc is 0 at 0, PWM_MAX at P/2 and 0 at P |
| Waveforms.LinearRisesThenFalls | flashing_pattern.js:63-67 | Linear's calc strictly increases below P/2 and strictly decreases from P/2 on |
| Waveforms.LinearSymmetric | flashing_pattern.js:63-67 | Linear's calc is symmetric about P/2: calc(t) = calc(P − t) |
| Waveforms.LinearAndKeepInRange | flashing_pattern.js:70-87 | LinearAndKeep's calc lies in [0, PWM_MAX] on [0, P) |
| Waveforms.LinearAndKeepPlateaus | flashing_pattern.js:77-87 | LinearAndKeep holds PWM_MAX on [P/4, P/2) and is 0 from 3P/4 on |
| Waveforms.LinearAndKeepDescentMeets | flashing_pattern.js:73-83 | the descent `3·MAX − slope·t` starts at MAX at P/2 and reaches 0 at 3P/4; calc(0) = 0 |
| Waveforms.Parabola1InRange | flashing_pattern.js:100-108 | Parabola1's calc lies in [0, PWM_MAX] on [0, P] |
| Waveforms.Parabola1Shape | flashing_pattern.js:100-108 | Parabola1 is 0 at 0 and P, PWM_MAX at P/2, and calc(t) = calc(P − t) |
| Waveforms.Parabola2InRange | flashing_pattern.js:111-119 | Parabola2's calc lies in [0, PWM_MAX] on [0, P] |
| Waveforms.Parabola2Shape | flashing_pattern.js:111-119 | Parabola2 is 0 at P/2 and PWM_MAX at 0 and at P |
| Waveforms.Flash3Levels | flashing_pattern.js:122-139 | Flash3 only ever returns 0 or PWM_MAX, and returns PWM_MAX exactly inside one of the windows [0, P/15), [P/8, P/8 + P/15), [P/4, P/4 + P/15) |
| Waveforms.Flash3WindowsDisjoint | flashing_pattern.js:125-131 | each window ends before the next one starts, so no time lies in two windows |
| Waveforms.HalfIsSquare | flashing_pattern.js:142-150 | Half is PWM_MAX exactly when t < P/2 and 0 exactly otherwise |
| Waveforms.BasicInRange | flashing_pattern.js:57-150 | each of the six parameterised waveforms lies in [0, PWM_MAX] on [0, P) |
| Waveforms.SyncMusicPiece | flashing_pattern.js:153-180 | every sub-pattern call of SyncMusic gets an argument inside that sub-pattern's [0, period) |
| Waveforms.SyncMusicLandmarks | flashing_pattern.js:162-180 | SyncMusic is 0 before 3600 and on [11600, 14000), and PWM_MAX on [18500, 20500) and from 23200 on |
| Waveforms.SyncMusicInRange | flashing_pattern.js:162-180 | SyncMusic's calc lies in [0, PWM_MAX] at every time |
| Waveforms.CalcInRange | flashing_pattern.js:45 | the calc of every periodic pattern lies in [0, PWM_MAX] over its period |
| Waveforms.TickValueInRange | flashing_pattern.js:45-46 | every value a tick writes, `Math.round(calc(time))`, is in [0, PWM_MAX] |
| Patterns.NextPhase | flashing_pattern.js:47 | one tick's `(time + 15) % period`; PhaseAfterIsModular and PhaseStaysBounded state where it keeps the phase |
| Patterns.StartWrites | flashing_pattern.js:188-204 | what `start()` writes: nothing for a periodic pattern, PWM_MAX for On, 0 for Off; Pattern.Start states it as its output |
| Patterns.StopWrites | flashing_pattern.js:192-206 | what `stop()` writes: one 0 for a periodic pattern or On, nothing for Off; Pattern.Stop states it as its output |
| Patterns.PhaseAfterIsModular | flashing_pattern.js:43-47 | from a non-negative offset, the phase after n ticks is (offset + 15n) mod P, so it stays in [0, P) forever |
| Patterns.PhaseStaysBounded | flashing_pattern.js:39-47 | a phase in (−P, P) stays there after a tick, and once non-negative it stays non-negative |
| Patterns.Pattern.constructor | flashing_pattern.js:36-40 | a periodic pattern stores `offset % period` (in [0, P) for a non-negative offset) and starts its clock there, with no tick counted; On and Off keep only the pin; nothing runs yet |
| Patterns.Pattern.Start | flashing_pattern.js:42-49 | a periodic pattern restarts its clock at the offset, with its tick count back at 0, and starts running, writing nothing; On writes PWM_MAX; Off writes 0 (lines 188-190, 202-204) |
| Patterns.Pattern.Stop | flashing_pattern.js:51-54 | a periodic pattern or On stops and writes exactly one 0 to its pin, even when already stopped; Off writes nothing (lines 192-194, 206); the clock keeps its value |
| Patterns.Pattern.Tick | flashing_pattern.js:44-48 | one firing writes `Math.round(calc(time))` to the pattern's own pin and sets time to (time + 15) % P; the written value is a valid duty cycle; from a non-negative offset, after n firings since the start the clock is (offset + 15n) mod P |
| Scenes.SlotSpec | index.js:50-71 | the pattern of slot k, read from the scene table: slot 2i is scene i's LED1 pattern and slot 2i + 1 its LED2 pattern; SlotsDiffer, SlotWellFormed and SceneWrites state what the table guarantees |
| Scenes.Offsets | index.js:50-71 | one offset per slot, ten in all, read from the table; the constructors of Illumination and Controller state that every clock starts there |
| Scenes.StartPhases | index.js:76-81 | the clocks after `start(i)`: the two periodic patterns of scene i restart at their offsets, every other clock is unchanged |
| Scenes.SceneStartPhases | index.js:56-81 | `start(i)` touches only scene i's two clocks; scene 0 (Off/Off) touches none; scene 1 restarts both at 0; in scenes 2-4 LED1 restarts at 0 and LED2 at half the period, so the two LEDs run half a period apart (lines 61, 65, 69) |
| Scenes.SlotsDiffer | index.js:50-71 | no two instances of the table share both pin and pattern, so the ten instances are distinct objects |
| Scenes.SlotWellFormed | index.js:50-71 | every periodic pattern of the table has a positive period and an offset already in [0, P) |
| Scenes.SceneWrites | index.js:50-71 | starting scene 0 (Off/Off) writes 0 to both LEDs and stopping it writes nothing; starting scenes 1-4 writes nothing and stopping them writes 0 to LED1 then LED2 |
| Trigger.IlluminationStopEffects | index.js:99-102 | `illuminationStop()`'s output: `music 0`, then the stop writes of the current pair; SwitchStopsBeforeStarts and SceneWrites state them per scene |
| Trigger.IlluminationStartEffects | index.js:95-98 | `illuminationStart(i)`'s output: `music i`, then the start writes of scene i; SwitchStopsBeforeStarts and SceneWrites state them per scene |
| Trigger.SampleStep | index.js:110-134 | a sample keeps the machine's invariant: level in [0, 40], reset pending exactly when level > 0, and from level 10 on the current scene is level / 10 |
| Trigger.UnlockStep | index.js:115-117 | the debounce timeout clears the lock and changes nothing else |
| Trigger.ResetStep | index.js:128-131 | the reset timeout sets level to 0, keeps the invariant, keeps the current scene and leaves the lock alone |
| Trigger.SampleAll | index.js:110-134 | any run of samples keeps the invariant |
| Trigger.CanAdvanceIff | index.js:121 | the guard `level / 10 < 4`, with real division, holds exactly when level < 40 |
| Trigger.SampleGuards | index.js:111-131 | while locked, or on a reading other than 1, a sample changes nothing and emits nothing; a reading of 1 sets the lock and leaves one reset pending; only the unlock timeout clears the lock |
| Trigger.SwitchIff | index.js:121-126 | a sample emits anything exactly when it counts a detection that makes level a multiple of 10; the scene started is then level / 10, in 1..4; otherwise the scene is unchanged |
| Trigger.SwitchStopsBeforeStarts | index.js:95-102 | a switch emits `music 0`, then the zero writes that stop the old pair, then `music n`, then the start writes of scene n, with nothing interleaved (lines 123-126) |
| Trigger.CountingSample | index.js:113-131 | below the cap, a reading of 1 counts one, locks and arms the reset, and switches to scene (level + 1) / 10 exactly when level + 1 is a multiple of 10 |
| Trigger.CappedDetection | index.js:121-131 | at level 40 a reading of 1 only locks and re-arms the reset |
| Trigger.LockedBurstIgnored | index.js:111 | any burst of samples while locked changes nothing and emits nothing |
| Trigger.DetectStep | index.js:113-127 | one detection plus its unlock counts one below the cap, switching exactly at a multiple of 10 |
| Trigger.SilentDetection | index.js:121-127 | a detection that does not reach a multiple of 10 only counts |
| Trigger.DetectionsAccumulateSilently | index.js:121-127 | from a multiple of 10 below 40, fewer than ten detections only count, with no switch and no output |
| Trigger.TenthDetection | index.js:121-126 | the detection that reaches 10·(q + 1) switches from the current scene to scene q + 1 |
| Trigger.DetectionsAdvanceOneScene | index.js:121-126 | from level 10·q below the cap, ten detections advance exactly one scene: stop the current pair, start scene q + 1 |
| Trigger.ResetThenSwitchStopsAgain | index.js:83-90 | `stop()` never clears the current pair: after a reset the next switch writes 0 to both LEDs of the old scene again before starting scene 1 (lines 128-131) |
| Illuminations.Illumination.Differ | index.js:50-71 | distinct slots of the table hold distinct pattern objects |
| Illuminations.Illumination.AppendScene | index.js:50-71 | one table entry: new instances of the scene's led1 pattern on LED1 and led2 pattern on LED2, both stopped |
| Illuminations.Illumination.constructor | index.js:49-74 | builds all five pairs as the table prescribes, each of the ten instances newly allocated, nothing running, no current pair, and every clock at its slot's offset |
| Illuminations.Illumination.Start | index.js:76-81 | makes scene `level` the current pair, starts both its patterns and emits their start writes; only its periodic patterns run afterwards; the pair's periodic clocks restart at their offsets and no other clock changes |
| Illuminations.Illumination.StartPair | index.js:79-80 | starts LED1's pattern, then LED2's: each periodic one runs from its offset, and the writes come in that order |
| Illuminations.Illumination.Stop | index.js:83-90 | does nothing before any start; otherwise stops both patterns of the current pair with their stop writes; the current pair is kept, and so is every clock |
| Illuminations.Illumination.StopPair | index.js:84-89 | stops LED1's pattern, then LED2's, with their stop writes in that order; both clocks keep their value |
| Illuminations.Illumination.Tick | flashing_pattern.js:44-48 | the interval of running slot k writes a valid duty cycle to the slot's pin and advances that slot's clock by one tick; every other clock and the current pair are unchanged |
| Lighting.Controller.constructor | index.js:93-108 | level 0, unlocked, no reset pending, no current pair, empty output, every clock at its slot's offset; the illumination, the output log and all ten pattern instances are newly allocated, so a caller may drive the new controller |
| Lighting.Controller.RunningPatterns | index.js:121-131 | the patterns that run are exactly the periodic ones of scene level / 10, and none below level 10 |
| Lighting.Controller.IlluminationStart | index.js:95-98 | emits `music i`, then starts scene i, whose periodic clocks restart at their offsets while every other clock keeps its value |
| Lighting.Controller.IlluminationStop | index.js:99-102 | emits `music 0`, then stops the current pair; no clock changes |
| Lighting.Controller.SwitchScene | index.js:123-126 | illuminationStop() followed by illuminationStart(i): the output of both in order, scene i current, its periodic clocks restarted at their offsets and every other clock unchanged |
| Lighting.Controller.Sample | index.js:110-134 | one 15 ms sample: the new state and the output are those of the step function, and the invariant is kept; a sample that emits nothing changes no clock, and one that switches restarts the new scene's clocks only |
| Lighting.Controller.Detected | index.js:113-131 | a reading of 1 while unlocked: lock, cancel and re-arm the reset, count below the cap and switch at each multiple of 10; clocks change only on a switch, and then only the new scene's |
| Lighting.Controller.Count | index.js:121-127 | `level++`; at a multiple of 10 it switches to scene level / 10 and restarts that scene's clocks, otherwise it changes no scene, no clock, and emits nothing |
| Lighting.Controller.UnlockFires | index.js:115-117 | the debounce timeout clears the lock, emits nothing and changes no clock |
| Lighting.Controller.ResetFires | index.js:128-131 | the reset timeout stops the current pair (`music 0` and zero writes), sets level to 0, and leaves no pattern running; no clock changes |
| Lighting.Controller.Tick | flashing_pattern.js:44-48 | the interval of a running pattern writes a valid duty cycle to that pattern's pin and sets its clock to (time + 15) % P; it changes no other clock and no sensor state |
| Lighting.Controller.Shutdown | index.js:42-46 | on SIGINT, illuminationStop() leaves no pattern running and changes no clock |

## Left out

- pigpio is not modelled: `open`, `close`, the `Gpio` objects, `hardwarePwmWrite` and `digitalRead`. A write becomes an entry of the output log, and the sensor reading is a parameter of `Sample`.
- PWM_FREQUENCY (64) is not modelled. Every write uses it, so the log records only pin and duty cycle.
- `SineWave` is not modelled: its `calc` uses `Math.sin` and `Math.PI`, which exact rationals cannot state.
- JavaScript numbers are IEEE doubles; the model uses exact rationals. Its brightness values are the exact values that the double arithmetic approximates.
- Real time is not modelled: when `setInterval`, `setTimeout` and `clearTimeout` fire. Each callback is an event method that any interleaving may call. A timer's identity is reduced to whether it is pending.
- The Express routes, the HTTP server, the socket.io connection log and `process.exit` are not modelled. `io.emit('music', n)` is an entry of the output log.
- SyncMusic's `linearAndKeep` sub-pattern is built but never called by its `calc`, so it is not modelled. SyncMusic's phase is an integer only.
- `currentLed1`/`currentLed2` are modelled as one scene index, because they are always assigned from the same table entry.
- Waveforms.WellFormed: the model requires a positive period. With period 0 the code computes NaN offsets and brightness, and nothing in the code rejects it.
- Patterns.Pattern.Start: requires the pattern to be stopped. Starting a running pattern in JavaScript would leave its old interval live and unreachable. The application never does this: `Illuminations.Illumination.Start` requires that no pair is started, and `Lighting.Controller.SwitchScene` meets that by calling `IlluminationStop` first.
- Patterns.Pattern.Tick: the range of the written value is stated for non-negative offsets only, the only ones the table uses. `PhaseStaysBounded` covers the negative case.
- Illuminations.Illumination.Start: requires a scene index below 5 and no pair started. JavaScript would throw on a missing table entry. The controller only starts scenes 1-4, and always after a stop.
- Lighting.Controller.ResetFires: requires the reset to be pending, because the callback exists only then.
- Lighting.Controller.Tick: requires the pattern to be running, because its interval exists only then.
