# LightBoard keyboard-backlight effects, modelled in Dafny

LightBoard is a macOS menu-bar app. It animates the keyboard backlight, and
it cannot read the backlight level back. It can only post "one step up" and
"one step down" illumination key events. This project models three pieces of
it and proves properties about them.

- **The actuator**: `KeyboardBrightnessController`, in `actuator.dfy`.
  - Each posted event is a `Command` (`Up` or `Down`) appended to the
    controller's `posted` log.
  - `Net(log)` is the level change a log causes. `NetCountsCommands` proves
    it equals the number of `Up` entries minus the number of `Down` entries.
  - The `steps:` loops are `while` loops, with invariants on what has been
    appended so far.
  - `setBrightness` is one single-direction `StepRun`.
- **The effect scheduler**: `BreathingEngine`, in `breathing.dfy`.
  - It is a class with the source's fields. Timer and monitor subscriptions
    become the flags `timerActive`, `fadeActive` and `monitoring`.
  - Timer firings become explicit calls:
    - `Tick` is one firing of the 100 ms breathing timer.
    - `FadeTick` is one firing of the 50 ms fade timer.
    - `HandleKeyPress` is one key-down delivered by the key press monitor.
  - Its invariant `Valid()` holds before and after every operation:
    - the believed level `currentBrightnessLevel` equals `Net` of everything
      the controller has posted;
    - it lies in `[0, 10]`, below the hardware's 16 levels;
    - it is 0, with the phase 0 and no start time, whenever the engine is
      stopped.
  - The level bound is `MaxIntensity` rather than `intensity`.
    `setIntensity` may lower the intensity below a level already reached.
    For the same reason, `currentPhase` can exceed 1 during a fade that
    follows such a change.
- **The beat detector**: `AudioAnalyzer`, in `beat_detection.dfy`.
  - The mean and the variance are recursive functions over the window.
  - `detectBeat` is a method. It appends to the energy history, evicts the
    oldest entry when over 43, stays silent until the window is full, and
    fires when both of these hold:
    - the energy exceeds `mean + sensitivity * sqrt(variance) * 2`;
    - more than 150 ms have passed since the last beat.
  - The square root is not computed. `ExceedsThreshold` states the test as
    `energy - mean > 0 && (energy - mean)^2 > 4 * sensitivity^2 * variance`.
    `ThresholdWithoutSqrt` proves this agrees with the square-root form for
    every non-negative standard deviation `sd` with `sd * sd == variance`.
  - A ghost log `beatTimes` records when beats fired. The invariant keeps
    consecutive beats more than 150 ms apart.
    `BeatsSpacedPairwise` extends this to any two beats.

Modelling conventions:
- Swift `Double` and `Float` values are Dafny `real`s, so there is no
  rounding error.
- `Date()` is a `now` parameter, in seconds.
- `Date.distantPast` as the last beat time is `None`.
- Swift's `round` (halves away from zero), `Int(_:)` (truncation toward zero)
  and `truncatingRemainder(dividingBy:)` (keeps the sign of the dividend) are
  written out exactly.

## Model

| member | source | states |
|---|---|---|
| `Basics.ClampInt` | LightBoard/BreathingEngine.swift:144 | the result lies in `[lo, hi]`; it is `x` when `x` is in range, otherwise the nearer bound |
| `Basics.ClampReal` | LightBoard/BreathingEngine.swift:134 | the result lies in `[lo, hi]`; it is `x` when `x` is in range, otherwise the nearer bound (also the sensitivity clamp) |
| `Actuator.Repeat` | LightBoard/KeyboardBrightnessController.swift:28-43 | a run of `n` commands, every one of them `c` |
| `Actuator.NetCountsCommands` | LightBoard/KeyboardBrightnessController.swift:14-15 | the level change of a log is its number of illumination-up events minus its number of illumination-down events |
| `Actuator.NetStep` | LightBoard/KeyboardBrightnessController.swift:18-25 | one more up-event raises the level by one; one more down-event lowers it by one |
| `Actuator.NetAppend` | LightBoard/KeyboardBrightnessController.swift:28-43 | the level changes of consecutive batches of events add up |
| `Actuator.NetRepeat` | LightBoard/KeyboardBrightnessController.swift:28-43 | `n` up-steps raise the level by `n`; `n` down-steps lower it by `n` |
| `Actuator.StepRun` | LightBoard/KeyboardBrightnessController.swift:89-98 | the run from `current` to `target` has exactly `abs(target - current)` commands; they are all up when the target is higher and all down when it is lower; its net change is `target - current` |
| `Actuator.StepRunMovesLevel` | LightBoard/KeyboardBrightnessController.swift:89-98 | whatever was posted before, appending the run from the believed level to a target leaves the net level at the target |
| `Actuator.BrightnessController.constructor` | LightBoard/KeyboardBrightnessController.swift:12 | a new controller has posted nothing |
| `Actuator.BrightnessController.IncreaseBrightness` | LightBoard/KeyboardBrightnessController.swift:18-20 | exactly one up-event is appended to the log, and nothing else changes |
| `Actuator.BrightnessController.DecreaseBrightness` | LightBoard/KeyboardBrightnessController.swift:23-25 | exactly one down-event is appended to the log, and nothing else changes |
| `Actuator.BrightnessController.IncreaseBrightnessBy` | LightBoard/KeyboardBrightnessController.swift:28-34 | for a count `n >= 0`, exactly `n` up-events are appended and nothing else |
| `Actuator.BrightnessController.DecreaseBrightnessBy` | LightBoard/KeyboardBrightnessController.swift:37-43 | for a count `n >= 0`, exactly `n` down-events are appended and nothing else |
| `Actuator.BrightnessController.SetBrightness` | LightBoard/KeyboardBrightnessController.swift:89-98 | appends exactly the single-direction run from `currentLevel` to `targetLevel` (nothing when they are equal); the log's net level moves by `targetLevel - currentLevel` |
| `Breathing.Truncate` | LightBoard/BreathingEngine.swift:106 | the integer is the real rounded toward zero: within one below a non-negative value, and within one above a negative value |
| `Breathing.RemainderWithinPeriod` | LightBoard/BreathingEngine.swift:106 | `x` minus the truncated number of periods lies in `[0, y)` for `x >= 0` and in `(-y, 0]` for `x < 0` |
| `Breathing.TruncatingRemainder` | LightBoard/BreathingEngine.swift:106 | the remainder has the sign of the dividend and is smaller than one period in magnitude; the dividend minus it is a whole number of periods |
| `Breathing.CycleProgress` | LightBoard/BreathingEngine.swift:106-107 | the cycle position is in `[0, 1)` for a non-negative elapsed time (and in `(-1, 0]` for a clock that went backwards) |
| `Breathing.Round` | LightBoard/BreathingEngine.swift:116 | the integer is within one half of the real, with halves going away from zero |
| `Breathing.BreathingTarget` | LightBoard/BreathingEngine.swift:112-116 | for a wave value in `[0, 1]` the target level lies in `[0, intensity]`; it is 0 at the trough and `intensity` at the crest |
| `Breathing.DrainReachesZero` | LightBoard/BreathingEngine.swift:72-75 | draining with exactly as many down-steps as the believed level brings the net level to 0 |
| `Breathing.BreathingEngine.constructor` | LightBoard/BreathingEngine.swift:12-23 | a new engine is stopped, in continuous mode, with speed 4 s, intensity 5, level 0, and nothing posted; it satisfies the invariant |
| `Breathing.BreathingEngine.Start` | LightBoard/BreathingEngine.swift:27-50 | a no-op while running; otherwise the engine runs from level 0; in key press mode the monitor is requested (`monitoring`), the breathing timer off and the start time unchanged; in continuous mode the breathing timer is on, the monitor off and the start time is `now`; nothing is posted; the invariant is kept |
| `Breathing.BreathingEngine.Stop` | LightBoard/BreathingEngine.swift:53-76 | a no-op while stopped, posting nothing; otherwise every timer and the monitor are off, phase and level are 0, and exactly the old level's worth of down-steps is posted (none at level 0); the invariant is kept |
| `Breathing.BreathingEngine.Toggle` | LightBoard/BreathingEngine.swift:79-85 | flips `isRunning`; leaves the level and phase at 0 with the fade off, and posts exactly the old level's worth of down-steps; stopping turns the breathing timer and monitor off; starting turns on the monitor (key press mode) or the breathing timer (continuous mode); the start time is `now` exactly when it starts in continuous mode, and none otherwise |
| `Breathing.BreathingEngine.ToggleMode` | LightBoard/BreathingEngine.swift:88-96 | flips `keyPressMode` exactly once; `isRunning` is unchanged; the level and phase end at 0 with the fade off, the level drained with exactly the old level's worth of down-steps; when running, the new mode's timer or monitor is the one active; the start time is `now` exactly when it is running in continuous mode, and none otherwise |
| `Breathing.BreathingEngine.Tick` | LightBoard/BreathingEngine.swift:99-130 | without a start time nothing changes; otherwise the phase is the cycle position of the elapsed time, and the level becomes the rounded target in `[0, intensity]` through exactly the single-direction run from the old level (nothing when equal); the invariant is kept |
| `Breathing.BreathingEngine.SetSpeed` | LightBoard/BreathingEngine.swift:133-140 | the speed is the argument clamped to `[1, 10]` seconds; while running the start time is re-anchored to `now`; nothing else changes |
| `Breathing.BreathingEngine.SetIntensity` | LightBoard/BreathingEngine.swift:143-145 | the intensity is the argument clamped to `[1, 10]`; nothing else changes |
| `Breathing.BreathingEngine.HandleKeyPress` | LightBoard/BreathingEngine.swift:153-175 | the fade restarts; the level becomes `intensity` through exactly the single-direction run from the old level; the invariant is kept |
| `Breathing.BreathingEngine.FadeTick` | LightBoard/BreathingEngine.swift:178-191 | fires only while the fade timer is subscribed; at level 0 the fade timer is cancelled and nothing is posted; otherwise exactly one down-step is posted, the level drops by one and the phase becomes level / intensity |
| `Breathing.BreathingEngine.KeyPressPulse` | LightBoard/BreathingEngine.swift:153-191 | a key press followed by the fade timer firing until it cancels itself posts the run up to `intensity` and then exactly `intensity` down-steps; this takes `intensity + 1` ticks and ends at level 0 and phase 0 with the fade off; the mode, running flag, speed, intensity, start time and breathing timer are unchanged |
| `BeatDetection.Mean` | LightBoard/AudioAnalyzer.swift:189 | the average, counted once per energy in the window, adds up to the window's sum |
| `BeatDetection.SquaredDeviations` | LightBoard/AudioAnalyzer.swift:192 | the sum of squared deviations is never negative |
| `BeatDetection.Variance` | LightBoard/AudioAnalyzer.swift:192 | the population variance of a window is never negative |
| `BeatDetection.SumBounds` | LightBoard/AudioAnalyzer.swift:189 | the sum of `n` values within `[lo, hi]` lies within `[n * lo, n * hi]` |
| `BeatDetection.SumNonNegative` | LightBoard/AudioAnalyzer.swift:175 | a sum of non-negative magnitudes is non-negative |
| `BeatDetection.MeanWithin` | LightBoard/AudioAnalyzer.swift:189 | the average energy lies within any bounds on the window's energies |
| `BeatDetection.SquaredDeviationsOfConstant` | LightBoard/AudioAnalyzer.swift:192 | over `n` equal values `c`, the squared deviations from `m` total `n * (c - m)^2` |
| `BeatDetection.ConstantWindow` | LightBoard/AudioAnalyzer.swift:189-192 | a window of one repeated energy has that energy as mean and zero variance |
| `BeatDetection.ThresholdWithoutSqrt` | LightBoard/AudioAnalyzer.swift:193-199 | characterises the predicate `ExceedsThreshold`: for a non-negative sensitivity and any standard deviation `sd >= 0` with `sd * sd == variance`, `energy > mean + sensitivity * sd * 2` holds exactly when `ExceedsThreshold` does |
| `BeatDetection.ThresholdAtLeastMean` | LightBoard/AudioAnalyzer.swift:193 | exceeding the threshold requires the energy strictly above the mean; with sensitivity 0 or a zero-variance window, being strictly above the mean is also enough |
| `BeatDetection.SilenceNeverExceeds` | LightBoard/AudioAnalyzer.swift:189-199 | in a window of non-negative energies the mean is non-negative, so energy 0 (a short buffer's) never exceeds the threshold, at any sensitivity |
| `BeatDetection.Window` | LightBoard/AudioAnalyzer.swift:180-183 | the history grows by one up to 43; the new energy is last; below capacity it is the old history plus the energy; at capacity the oldest entry is evicted and the rest keep their order |
| `BeatDetection.WindowKeepsNewest` | LightBoard/AudioAnalyzer.swift:180-183 | one window update turns the newest 43 energies of a stream into the newest 43 of the stream extended by the new energy; with the analyzer's invariant `energyHistory == Newest(arrivals)`, kept from the empty history by every method, the history is always the newest 43 energies detected since it was last cleared, in arrival order |
| `BeatDetection.BeatFiresExactly` | LightBoard/AudioAnalyzer.swift:186-199 | characterises the predicates `BeatFires` and `RefractoryElapsed`: a beat fires exactly when the window is full, the energy exceeds `mean + sensitivity * sd * 2` for the window's standard deviation `sd`, and more than 150 ms have passed since the last beat |
| `BeatDetection.SpikeAfterFlatWindowExceeds` | LightBoard/AudioAnalyzer.swift:189-193 | after 42 equal energies, any higher energy exceeds the threshold at every sensitivity in `[0, 1]` |
| `BeatDetection.BeatsSpacedExtend` | LightBoard/AudioAnalyzer.swift:196-200 | a beat more than 150 ms after the latest one keeps consecutive beats spaced |
| `BeatDetection.BeatsSpacedPairwise` | LightBoard/AudioAnalyzer.swift:196-200 | when consecutive beats are more than 150 ms apart, so are any two beats |
| `BeatDetection.LowFrequencyEnergy` | LightBoard/AudioAnalyzer.swift:139-176 | a buffer shorter than 1024 samples has energy 0; otherwise the energy, counted once per bin, adds up to the sum of the 6 lowest bins' magnitudes |
| `BeatDetection.LowFrequencyEnergyNonNegative` | LightBoard/AudioAnalyzer.swift:170-175 | the magnitudes are square roots, hence non-negative, and so is their average, the bass energy |
| `BeatDetection.AudioAnalyzer.constructor` | LightBoard/AudioAnalyzer.swift:14-38 | a new analyzer is idle, with sensitivity 0.5, an empty history and no previous beat |
| `BeatDetection.AudioAnalyzer.Start` | LightBoard/AudioAnalyzer.swift:52-65 | a no-op while analyzing; otherwise analysis begins exactly when permission is granted and the audio engine starts; the history, the indicator, the last beat, the sensitivity and the ghost logs `beatTimes` and `arrivals` are untouched |
| `BeatDetection.AudioAnalyzer.Stop` | LightBoard/AudioAnalyzer.swift:68-83 | a no-op unless analyzing; otherwise analysis stops, the beat indicator clears, and the energy history and the ghost log `arrivals` of energies behind it are emptied; the sensitivity, the last beat time and the ghost log `beatTimes` are kept |
| `BeatDetection.AudioAnalyzer.Toggle` | LightBoard/AudioAnalyzer.swift:86-92 | analyzing afterwards exactly when it was not before and starting succeeded; stopping empties the history and clears the beat indicator; starting leaves both, and `arrivals`, unchanged; the sensitivity, the last beat time and `beatTimes` are kept either way |
| `BeatDetection.AudioAnalyzer.SetSensitivity` | LightBoard/AudioAnalyzer.swift:215-217 | the sensitivity is the argument clamped to `[0, 1]`; nothing else changes |
| `BeatDetection.AudioAnalyzer.RecordEnergy` | LightBoard/AudioAnalyzer.swift:179-183 | for a non-negative energy, the history becomes `Window(old history, energy)` and `arrivals` gains the energy; the beat state, sensitivity and the analyzing flag are unchanged; the invariant is kept |
| `BeatDetection.AudioAnalyzer.DetectBeat` | LightBoard/AudioAnalyzer.swift:178-212 | the history becomes `Window(old history, energy)`; the beat fires exactly per `BeatFires` on the updated window, never while it holds fewer than 43 energies; the last beat time moves to `now` and the ghost log `beatTimes` gains `now` exactly when the beat fires, and beats stay more than 150 ms apart; the beat indicator is set when it fires and otherwise unchanged; `arrivals` gains the energy; it takes only a non-negative energy, the only kind its caller computes, and the history stays non-negative |
| `BeatDetection.AudioAnalyzer.ProcessAudioBuffer` | LightBoard/AudioAnalyzer.swift:120-137 | the buffer's bass energy goes through `DetectBeat`, with the same history, firing, last-beat, `beatTimes`, indicator and `arrivals` outcome; a buffer shorter than 1024 samples contributes energy 0 and never fires a beat, because the magnitudes are square roots and so every energy in the history is non-negative |

## Left out

- The SwiftUI views, the app and menu-bar wiring, the accessibility-permission helper and the key press monitor's event tap are not modelled. The monitor is the `monitoring` flag, which means that the engine asked the monitor to start. The monitor itself may silently not start, without accessibility trust or when the event tap cannot be created; the model then still allows key presses the program would not deliver. `HandleKeyPress` requires the flag, because the monitor delivers key-downs only while started.
- The `musicSyncMode` that the app file reads does not exist in the engine, and the engine never uses the analyzer, so no wiring between them is modelled.
- `postKeyboardIlluminationEvent` builds and posts two NSEvents with `usleep` delays; it is modelled as one log append per call. A failed NSEvent creation, which posts nothing, is not modelled.
- `SetBrightness`: Swift's `Int` subtraction and `abs` in `setBrightness` trap on overflow, while the model's integers are unbounded. `setBrightness` has no caller in the app, because the engine writes its step runs inline, so the overflow cannot be reached.
- `IncreaseBrightnessBy` / `DecreaseBrightnessBy`: a negative count, on which Swift's `0..<steps` traps, is excluded by the precondition rather than modelled as a trap. Every caller passes a positive count.
- `sin` is not modelled. `Tick` takes the breathing wave value `(sin(2πp) + 1) / 2` as a parameter in `[0, 1]`. `getCurrentBreathingLevel`, which only evaluates `sin` for the UI, is left out for the same reason.
- Timer scheduling, the run loop, and `DispatchQueue.main.async`/`asyncAfter` are not modelled. Timer firings and key presses are explicit calls in any order, and deferred assignments such as `isAnalyzing` and `beatDetected` take effect at once. The 100 ms auto-clear of `beatDetected` is not modelled, so the indicator stays set until `Stop`.
- Floating-point rounding of `Float`/`Double` is not modelled; all of them are reals.
- Microphone permission and the AVAudioEngine setup in `AudioAnalyzer.start` are the two boolean parameters of `Start`. The static permission helpers, `init`, `deinit` and `setupFFT` are left out.
- The vDSP FFT and the magnitude loop are foreign numerics. `LowFrequencyEnergy` takes the 6 bass magnitudes as a parameter. Its `fftSetup == nil` early return of 0 is not modelled, since the setup is created at initialization.
- `ProcessAudioBuffer`: the `floatChannelData` guard and the RMS `currentVolume` computation are not modelled.
- The `onBeatDetected` callback is the `fired` result of `DetectBeat`.
- `detectBeat` runs on the audio tap's thread while `stop()` empties the history on the main thread. The model treats them as sequential calls, so a race between them is not modelled.
- `Tick` does not require the breathing timer to be subscribed. It keeps the source's nil-start-time guard, so it also covers firings the source never has: in key press mode, after `SetSpeed` has re-anchored the start time while running, a `Tick` moves the level to the breathing target although no breathing timer exists.
- `Sum`, `ExceedsThreshold`, `RefractoryElapsed` and `BeatFires` are definitions without contracts of their own. `SumBounds`, `SumNonNegative`, `ThresholdWithoutSqrt` and `BeatFiresExactly` state what they mean.
