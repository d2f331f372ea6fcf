/** The effect scheduler of LightBoard/BreathingEngine.swift: a state machine
    over `isRunning` and `keyPressMode` that owns the believed backlight level
    and turns timer ticks and key presses into single-direction step runs on
    its brightness controller.

    Timers become explicit calls: `Tick` is one firing of the 100 ms breathing
    timer (`updateBreathing`), `FadeTick` one firing of the 50 ms fade timer
    (`fadeOut`), and `HandleKeyPress` one key-down delivered by the key press
    monitor. `Date()` becomes a `now` parameter in seconds. */
module Breathing {
  import opened Basics
  import opened Actuator

  /** macOS keyboard backlight has 16 levels. */
  const MaxBrightnessLevel: int := 16
  const MinIntensity: int := 1
  const MaxIntensity: int := 10
  const MinSpeed: real := 1.0
  const MaxSpeed: real := 10.0

  /** Conversion of a real toward zero (Swift's `Int(_:)` on a `Double`). */
  function Truncate(q: real): (t: int)
    ensures q >= 0.0 ==> t as real <= q < t as real + 1.0
    ensures q < 0.0 ==> t as real - 1.0 < q <= t as real
  {
    if q >= 0.0 then q.Floor else -((-q).Floor)
  }

  /** Swift's `truncatingRemainder(dividingBy:)`: `x - y * trunc(x / y)`,
      which keeps the sign of `x`. */
  function TruncatingRemainder(x: real, y: real): (r: real)
    requires y > 0.0
    ensures x >= 0.0 ==> 0.0 <= r < y
    ensures x < 0.0 ==> -y < r <= 0.0
    ensures ((x - r) / y).Floor as real == (x - r) / y
  {
    var q := x / y;
    var t := Truncate(q);
    assert x == q * y;
    RemainderWithinPeriod(x, y, q, t);
    WholePeriods(y, t);
    assert x - (x - y * t as real) == t as real * y;
    x - y * t as real
  }

  /** `x - y * t`, with `t` the truncated quotient `q` of `x` by `y`, lies
      within one period of zero on the side of `x`. */
  lemma RemainderWithinPeriod(x: real, y: real, q: real, t: int)
    requires y > 0.0 && x == q * y && t == Truncate(q)
    ensures x >= 0.0 ==> 0.0 <= x - y * t as real < y
    ensures x < 0.0 ==> -y < x - y * t as real <= 0.0
  {
    var f := q - t as real;
    assert x - y * t as real == f * y;
    ProductSigns(q, y);
    if x >= 0.0 {
      FractionOfPeriod(f, y);
    } else {
      NegatedFractionOfPeriod(f, y);
    }
  }

  /** Whole periods divide back to their count. */
  lemma WholePeriods(y: real, t: int)
    requires y > 0.0
    ensures (t as real * y) / y == t as real
    ensures ((t as real * y) / y).Floor == t
  {
  }

  /** A fraction in `(-1, 0]` of a positive period lies in `(-period, 0]`. */
  lemma NegatedFractionOfPeriod(f: real, y: real)
    requires -1.0 < f <= 0.0 && y > 0.0
    ensures -y < f * y <= 0.0
  {
    FractionOfPeriod(-f, y);
    assert f * y == -((-f) * y);
  }

  /** A fraction in `[0, 1)` of a positive period lies in `[0, period)`. */
  lemma FractionOfPeriod(f: real, y: real)
    requires 0.0 <= f < 1.0 && y > 0.0
    ensures 0.0 <= f * y < y
  {
    ProductSigns(f, y);
    ProductSigns(1.0 - f, y);
    assert y - f * y == (1.0 - f) * y;
  }

  /** Position within the breathing cycle:
      `elapsed.truncatingRemainder(dividingBy: speed) / speed`. */
  function CycleProgress(elapsed: real, speed: real): (p: real)
    requires speed > 0.0
    ensures elapsed >= 0.0 ==> 0.0 <= p < 1.0
    ensures elapsed < 0.0 ==> -1.0 < p <= 0.0
  {
    var r := TruncatingRemainder(elapsed, speed);
    var p := r / speed;
    assert r == p * speed;
    assert speed - r == (1.0 - p) * speed;
    assert speed + r == (1.0 + p) * speed;
    assert -r == (-p) * speed;
    ProductSigns(p, speed);
    ProductSigns(-p, speed);
    ProductSigns(1.0 - p, speed);
    ProductSigns(1.0 + p, speed);
    p
  }

  /** Swift's `round`: to the nearest integer, halves away from zero. */
  function Round(x: real): (r: int)
    ensures x >= 0.0 ==> x - 0.5 < r as real <= x + 0.5
    ensures x < 0.0 ==> x - 0.5 <= r as real < x + 0.5
  {
    if x >= 0.0 then (x + 0.5).Floor else -((-x + 0.5).Floor)
  }

  /** The level a breathing tick aims for: `Int(round(sineValue * intensity))`,
      where `sineValue` is the breathing wave in `[0, 1]`. */
  function BreathingTarget(sine: real, intensity: int): (t: int)
    requires 0.0 <= sine <= 1.0
    requires intensity >= 0
    ensures 0 <= t <= intensity
    ensures sine == 0.0 ==> t == 0
    ensures sine == 1.0 ==> t == intensity
  {
    var x := sine * intensity as real;
    assert 0.0 <= x <= intensity as real by {
      assert intensity as real - x == (1.0 - sine) * intensity as real;
      if intensity > 0 {
        ProductSigns(sine, intensity as real);
        ProductSigns(1.0 - sine, intensity as real);
      }
    }
    Round(x)
  }

  /** Draining a log whose net level is `level` with `level` down-steps
      brings it to 0. */
  lemma DrainReachesZero(log: seq<Command>, level: nat)
    requires Net(log) == level
    ensures Net(log + Repeat(Down, level)) == 0
  {
    assert Repeat(Down, level) == StepRun(level, 0);
    StepRunMovesLevel(log, level, 0);
  }

  class BreathingEngine {
    var isRunning: bool
    /** Position in the breathing cycle, for visualization. */
    var currentPhase: real
    /** Duration of one breath cycle in seconds. */
    var speed: real
    /** Number of brightness steps at the peak. */
    var intensity: int
    var keyPressMode: bool
    /** Whether the 100 ms breathing `timer` is subscribed. */
    var timerActive: bool
    var startTime: Option<real>
    /** The believed hardware level; the hardware has no read-back. */
    var currentBrightnessLevel: int
    /** Whether the 50 ms `fadeOutTimer` is subscribed. */
    var fadeActive: bool
    /** Whether the key press monitor is delivering key-down events. */
    var monitoring: bool
    const controller: BrightnessController

    /** The scheduler's invariant: the believed level is exactly what the
        posted commands add up to, stays within the intensity range (so below
        the hardware maximum), and is 0 with every timer off when stopped. */
    ghost predicate Valid()
      reads this, controller
    {
      && Net(controller.posted) == currentBrightnessLevel
      && 0 <= currentBrightnessLevel <= MaxIntensity < MaxBrightnessLevel
      && MinIntensity <= intensity <= MaxIntensity
      && MinSpeed <= speed <= MaxSpeed
      && (!isRunning ==>
            currentBrightnessLevel == 0 && currentPhase == 0.0 && startTime.None?)
      && (timerActive ==> isRunning && startTime.Some?)
      && (monitoring ==> isRunning)
      && (fadeActive ==> isRunning)
    }

    constructor ()
      ensures Valid() && fresh(controller)
      ensures !isRunning && !keyPressMode && !fadeActive
      ensures speed == 4.0 && intensity == 5
      ensures currentBrightnessLevel == 0 && currentPhase == 0.0
      ensures controller.posted == []
    {
      isRunning := false;
      currentPhase := 0.0;
      speed := 4.0;
      intensity := 5;
      keyPressMode := false;
      timerActive := false;
      startTime := None;
      currentBrightnessLevel := 0;
      fadeActive := false;
      monitoring := false;
      controller := new BrightnessController();
    }

    /** `start()`: a no-op while running; otherwise starts the key press
        monitor or the breathing timer, from level 0. Posts nothing. */
    method Start(now: real)
      requires Valid()
      modifies this
      ensures Valid()
      ensures old(isRunning) ==> unchanged(this)
      ensures isRunning
      ensures !old(isRunning) ==>
        && currentBrightnessLevel == 0 && !fadeActive
        && (keyPressMode ==> monitoring && !timerActive)
        && (!keyPressMode ==> timerActive && !monitoring)
      ensures startTime == if old(isRunning) || keyPressMode then old(startTime) else Some(now)
      ensures keyPressMode == old(keyPressMode)
      ensures speed == old(speed) && intensity == old(intensity)
      ensures currentPhase == old(currentPhase)
    {
      if isRunning {
        return;
      }
      isRunning := true;
      if keyPressMode {
        currentBrightnessLevel := 0;
        monitoring := true;
      } else {
        startTime := Some(now);
        currentBrightnessLevel := 0;
        timerActive := true;
      }
    }

    /** `stop()`: a no-op while stopped; otherwise cancels every timer and
        the monitor and drains the believed level with exactly that many
        down-steps, back to 0. */
    method Stop()
      requires Valid()
      modifies this, controller
      ensures Valid()
      ensures !old(isRunning) ==> unchanged(this)
      ensures !old(isRunning) ==> controller.posted == old(controller.posted)
      ensures !isRunning && currentBrightnessLevel == 0 && currentPhase == 0.0
      ensures !timerActive && !fadeActive && !monitoring && startTime.None?
      ensures controller.posted == old(controller.posted) + Repeat(Down, old(currentBrightnessLevel))
      ensures keyPressMode == old(keyPressMode)
      ensures speed == old(speed) && intensity == old(intensity)
    {
      if !isRunning {
        assert controller.posted == old(controller.posted) + Repeat(Down, 0);
        return;
      }
      var level := currentBrightnessLevel;
      isRunning := false;
      monitoring := false;
      timerActive := false;
      startTime := None;
      currentPhase := 0.0;
      fadeActive := false;
      if level > 0 {
        controller.DecreaseBrightnessBy(level);
        DrainReachesZero(old(controller.posted), level);
        currentBrightnessLevel := 0;
      } else {
        assert controller.posted == old(controller.posted) + Repeat(Down, 0);
      }
    }

    /** `toggle()`: stop when running, start otherwise. */
    method Toggle(now: real)
      requires Valid()
      modifies this, controller
      ensures Valid()
      ensures isRunning == !old(isRunning)
      ensures currentBrightnessLevel == 0
      ensures currentPhase == 0.0 && !fadeActive
      ensures startTime == if isRunning && !keyPressMode then Some(now) else None
      ensures old(isRunning) ==> !timerActive && !monitoring
      ensures !old(isRunning) ==>
        (if keyPressMode then monitoring && !timerActive else timerActive && !monitoring)
      ensures controller.posted == old(controller.posted) + Repeat(Down, old(currentBrightnessLevel))
      ensures keyPressMode == old(keyPressMode)
      ensures speed == old(speed) && intensity == old(intensity)
    {
      if isRunning {
        Stop();
      } else {
        Start(now);
        assert controller.posted == old(controller.posted) + Repeat(Down, 0);
      }
    }

    /** `toggleMode()`: flips the mode once; when running, drains the level
        to 0 as `stop()` does and restarts in the new mode. */
    method ToggleMode(now: real)
      requires Valid()
      modifies this, controller
      ensures Valid()
      ensures keyPressMode == !old(keyPressMode)
      ensures isRunning == old(isRunning)
      ensures currentBrightnessLevel == 0 && currentPhase == 0.0 && !fadeActive
      ensures startTime == if isRunning && !keyPressMode then Some(now) else None
      ensures isRunning ==> (if keyPressMode then monitoring && !timerActive else timerActive && !monitoring)
      ensures controller.posted == old(controller.posted) + Repeat(Down, old(currentBrightnessLevel))
      ensures speed == old(speed) && intensity == old(intensity)
    {
      keyPressMode := !keyPressMode;
      if isRunning {
        Stop();
        Start(now);
      } else {
        assert controller.posted == old(controller.posted) + Repeat(Down, 0);
      }
    }

    /** `updateBreathing()`, one firing of the breathing timer at time `now`
        with breathing wave value `sine`: without a start time nothing
        happens; otherwise the phase follows the elapsed time and the level
        moves to the rounded target by one single-direction run. */
    method Tick(now: real, sine: real)
      requires Valid()
      requires 0.0 <= sine <= 1.0
      modifies this, controller
      ensures Valid()
      ensures old(startTime).None? ==> unchanged(this) && unchanged(controller)
      ensures old(startTime).Some? ==>
        && currentBrightnessLevel == BreathingTarget(sine, intensity)
        && currentPhase == CycleProgress(now - old(startTime).value, speed)
      ensures controller.posted == old(controller.posted) + StepRun(old(currentBrightnessLevel), currentBrightnessLevel)
      ensures isRunning == old(isRunning) && keyPressMode == old(keyPressMode)
      ensures speed == old(speed) && intensity == old(intensity)
      ensures startTime == old(startTime) && timerActive == old(timerActive)
      ensures fadeActive == old(fadeActive) && monitoring == old(monitoring)
    {
      if startTime.None? {
        assert controller.posted == old(controller.posted) + StepRun(currentBrightnessLevel, currentBrightnessLevel);
        return;
      }
      var elapsed := now - startTime.value;
      var cycleProgress := CycleProgress(elapsed, speed);
      currentPhase := cycleProgress;
      var targetLevel := BreathingTarget(sine, intensity);
      if targetLevel != currentBrightnessLevel {
        var difference := targetLevel - currentBrightnessLevel;
        if difference > 0 {
          controller.IncreaseBrightnessBy(difference);
        } else if difference < 0 {
          controller.DecreaseBrightnessBy(-difference);
        }
        StepRunMovesLevel(old(controller.posted), currentBrightnessLevel, targetLevel);
        currentBrightnessLevel := targetLevel;
      } else {
        assert controller.posted == old(controller.posted) + StepRun(targetLevel, targetLevel);
      }
    }

    /** `setSpeed(_:)`: clamps to [1, 10] seconds and re-anchors the start
        time while running, so the phase does not jump. */
    method SetSpeed(newSpeed: real, now: real)
      requires Valid()
      modifies this
      ensures Valid()
      ensures speed == ClampReal(newSpeed, MinSpeed, MaxSpeed)
      ensures startTime == if isRunning then Some(now) else old(startTime)
      ensures isRunning == old(isRunning) && keyPressMode == old(keyPressMode)
      ensures intensity == old(intensity)
      ensures currentBrightnessLevel == old(currentBrightnessLevel) && currentPhase == old(currentPhase)
      ensures timerActive == old(timerActive) && fadeActive == old(fadeActive) && monitoring == old(monitoring)
    {
      speed := ClampReal(newSpeed, MinSpeed, MaxSpeed);
      if isRunning {
        startTime := Some(now);
      }
    }

    /** `setIntensity(_:)`: clamps to [1, 10] steps. The level already
        reached is left as it is. */
    method SetIntensity(newIntensity: int)
      requires Valid()
      modifies this
      ensures Valid()
      ensures intensity == ClampInt(newIntensity, MinIntensity, MaxIntensity)
      ensures isRunning == old(isRunning) && keyPressMode == old(keyPressMode)
      ensures speed == old(speed) && startTime == old(startTime)
      ensures currentBrightnessLevel == old(currentBrightnessLevel) && currentPhase == old(currentPhase)
      ensures timerActive == old(timerActive) && fadeActive == old(fadeActive) && monitoring == old(monitoring)
    {
      intensity := ClampInt(newIntensity, MinIntensity, MaxIntensity);
    }

    /** `handleKeyPress()`, one key-down delivered by the monitor (which
        delivers only while it is started): restarts the fade timer and
        moves the level to `intensity` by one single-direction run. */
    method HandleKeyPress()
      requires Valid()
      requires monitoring
      modifies this, controller
      ensures Valid()
      ensures currentBrightnessLevel == intensity && fadeActive
      ensures controller.posted == old(controller.posted) + StepRun(old(currentBrightnessLevel), intensity)
      ensures isRunning == old(isRunning) && keyPressMode == old(keyPressMode)
      ensures speed == old(speed) && intensity == old(intensity)
      ensures startTime == old(startTime) && currentPhase == old(currentPhase)
      ensures timerActive == old(timerActive) && monitoring == old(monitoring)
    {
      fadeActive := false;
      var targetLevel := intensity;
      var difference := targetLevel - currentBrightnessLevel;
      if difference > 0 {
        controller.IncreaseBrightnessBy(difference);
      } else if difference < 0 {
        controller.DecreaseBrightnessBy(-difference);
      }
      StepRunMovesLevel(old(controller.posted), currentBrightnessLevel, targetLevel);
      currentBrightnessLevel := targetLevel;
      fadeActive := true;
    }

    /** `fadeOut()`, one firing of the fade timer, which fires only while
        subscribed: at level 0 it cancels itself and posts nothing; otherwise it posts one down-step and lowers
        the level by one. */
    method FadeTick()
      requires Valid()
      requires fadeActive
      modifies this, controller
      ensures Valid()
      ensures old(currentBrightnessLevel) == 0 ==>
        && !fadeActive
        && controller.posted == old(controller.posted)
        && currentBrightnessLevel == 0 && currentPhase == old(currentPhase)
      ensures old(currentBrightnessLevel) > 0 ==>
        && fadeActive == old(fadeActive)
        && controller.posted == old(controller.posted) + [Down]
        && currentBrightnessLevel == old(currentBrightnessLevel) - 1
        && currentPhase == currentBrightnessLevel as real / intensity as real
      ensures currentBrightnessLevel == 0 ==> currentPhase == if old(currentBrightnessLevel) == 0 then old(currentPhase) else 0.0
      ensures isRunning == old(isRunning) && keyPressMode == old(keyPressMode)
      ensures speed == old(speed) && intensity == old(intensity)
      ensures startTime == old(startTime)
      ensures timerActive == old(timerActive) && monitoring == old(monitoring)
    {
      if currentBrightnessLevel <= 0 {
        fadeActive := false;
      } else {
        controller.DecreaseBrightnessBy(1);
        assert Repeat(Down, 1) == [Down];
        NetStep(old(controller.posted), Down);
        currentBrightnessLevel := currentBrightnessLevel - 1;
        currentPhase := currentBrightnessLevel as real / intensity as real;
      }
    }

    /** One key press followed by the fade timer firing until it cancels
        itself: the level reaches `intensity`, then returns to 0 one step per
        tick, after exactly `intensity` down-steps and `intensity + 1` ticks
        (the last one finds level 0 and cancels the timer). */
    method KeyPressPulse() returns (ticks: nat)
      requires Valid()
      requires monitoring
      modifies this, controller
      ensures Valid()
      ensures currentBrightnessLevel == 0 && currentPhase == 0.0 && !fadeActive && monitoring
      ensures ticks == intensity + 1
      ensures controller.posted
        == old(controller.posted) + StepRun(old(currentBrightnessLevel), intensity) + Repeat(Down, intensity)
      ensures isRunning == old(isRunning) && keyPressMode == old(keyPressMode)
      ensures speed == old(speed) && intensity == old(intensity)
      ensures startTime == old(startTime) && timerActive == old(timerActive)
    {
      HandleKeyPress();
      ghost var peak := controller.posted;
      ticks := 0;
      while fadeActive
        invariant Valid() && monitoring && intensity == old(intensity)
        invariant isRunning == old(isRunning) && keyPressMode == old(keyPressMode) && speed == old(speed)
        invariant startTime == old(startTime) && timerActive == old(timerActive)
        invariant ticks > 0 && currentBrightnessLevel == 0 ==> currentPhase == 0.0
        invariant fadeActive ==> ticks <= intensity && currentBrightnessLevel == intensity - ticks
        invariant !fadeActive ==> ticks == intensity + 1 && currentBrightnessLevel == 0
        invariant controller.posted == peak + Repeat(Down, if ticks <= intensity then ticks else intensity)
        decreases intensity + 1 - ticks
      {
        FadeTick();
        ticks := ticks + 1;
      }
    }
  }
}
