/** The keyboard backlight actuator of LightBoard/KeyboardBrightnessController.swift.
    The hardware accepts only "one step up" and "one step down" and cannot be
    read back, so the controller is modelled by the log of the illumination
    events it has posted. */
module Actuator {

  /** One posted illumination key event: NX_KEYTYPE_ILLUMINATION_UP (21) or
      NX_KEYTYPE_ILLUMINATION_DOWN (22). */
  datatype Command = Up | Down

  /** `n` copies of the command `c`. */
  function Repeat(c: Command, n: nat): (r: seq<Command>)
    ensures |r| == n
    ensures forall i :: 0 <= i < n ==> r[i] == c
  {
    if n == 0 then [] else Repeat(c, n - 1) + [c]
  }

  /** The net hardware level change a log causes: the number of `Up` entries
      minus the number of `Down` entries. */
  function Net(log: seq<Command>): int
  {
    if log == [] then 0
    else Net(log[..|log| - 1]) + (if log[|log| - 1] == Up then 1 else -1)
  }

  /** `Net` is the count of `Up` entries minus the count of `Down` entries. */
  lemma {:induction false} NetCountsCommands(log: seq<Command>)
    ensures Net(log) == multiset(log)[Up] as int - multiset(log)[Down] as int
  {
    if log != [] {
      var init := log[..|log| - 1];
      assert log == init + [log[|log| - 1]];
      NetCountsCommands(init);
    }
  }

  /** One more command moves the net level by one in its direction. */
  lemma NetStep(log: seq<Command>, c: Command)
    ensures Net(log + [c]) == Net(log) + (if c == Up then 1 else -1)
  {
    assert (log + [c])[..|log|] == log;
  }

  lemma {:induction false} NetAppend(a: seq<Command>, b: seq<Command>)
    ensures Net(a + b) == Net(a) + Net(b)
  {
    if b == [] {
      assert a + b == a;
    } else {
      var init := b[..|b| - 1];
      assert (a + b)[..|a + b| - 1] == a + init;
      assert (a + b)[|a + b| - 1] == b[|b| - 1];
      NetAppend(a, init);
    }
  }

  lemma {:induction false} NetRepeat(c: Command, n: nat)
    ensures Net(Repeat(c, n)) == if c == Up then n as int else -(n as int)
  {
    if n > 0 {
      assert Repeat(c, n)[..n - 1] == Repeat(c, n - 1);
      NetRepeat(c, n - 1);
    }
  }

  /** The run of single-direction steps that moves the hardware from
      `current` to `target`: what `setBrightness(targetLevel:currentLevel:)`
      posts, and what the engine posts inline whenever it changes level. */
  function StepRun(current: int, target: int): (r: seq<Command>)
    ensures |r| == if target >= current then target - current else current - target
    ensures target > current ==> forall i :: 0 <= i < |r| ==> r[i] == Up
    ensures target < current ==> forall i :: 0 <= i < |r| ==> r[i] == Down
    ensures Net(r) == target - current
  {
    if target > current then
      NetRepeat(Up, target - current);
      Repeat(Up, target - current)
    else
      NetRepeat(Down, current - target);
      Repeat(Down, current - target)
  }

  /** Appending a step run to a log moves its net level from `current` to
      `target`, whatever the log was. */
  lemma StepRunMovesLevel(log: seq<Command>, current: int, target: int)
    requires Net(log) == current
    ensures Net(log + StepRun(current, target)) == target
  {
    NetAppend(log, StepRun(current, target));
  }

  /** The controller: `posted` is every event it has sent to the HID event
      tap, oldest first. */
  class BrightnessController {
    var posted: seq<Command>

    constructor ()
      ensures posted == []
    {
      posted := [];
    }

    /** `increaseBrightness()`: posts one illumination-up event. */
    method IncreaseBrightness()
      modifies this
      ensures posted == old(posted) + [Up]
    {
      posted := posted + [Up];
    }

    /** `decreaseBrightness()`: posts one illumination-down event. */
    method DecreaseBrightness()
      modifies this
      ensures posted == old(posted) + [Down]
    {
      posted := posted + [Down];
    }

    /** `increaseBrightness(steps:)`: `for _ in 0..<steps`, which traps
        for a negative count. */
    method IncreaseBrightnessBy(steps: int)
      requires steps >= 0
      modifies this
      ensures posted == old(posted) + Repeat(Up, steps)
    {
      var i := 0;
      while i < steps
        invariant 0 <= i <= steps
        invariant posted == old(posted) + Repeat(Up, i)
      {
        IncreaseBrightness();
        i := i + 1;
      }
    }

    /** `decreaseBrightness(steps:)`: `for _ in 0..<steps`, which traps
        for a negative count. */
    method DecreaseBrightnessBy(steps: int)
      requires steps >= 0
      modifies this
      ensures posted == old(posted) + Repeat(Down, steps)
    {
      var i := 0;
      while i < steps
        invariant 0 <= i <= steps
        invariant posted == old(posted) + Repeat(Down, i)
      {
        DecreaseBrightness();
        i := i + 1;
      }
    }

    /** `setBrightness(targetLevel:currentLevel:)`: one single-direction run
        of `|targetLevel - currentLevel|` steps, nothing when they are equal. */
    method SetBrightness(targetLevel: int, currentLevel: int)
      modifies this
      ensures posted == old(posted) + StepRun(currentLevel, targetLevel)
      ensures Net(posted) == Net(old(posted)) + (targetLevel - currentLevel)
    {
      var difference := targetLevel - currentLevel;
      if difference > 0 {
        IncreaseBrightnessBy(difference);
      } else if difference < 0 {
        DecreaseBrightnessBy(-difference);
      }
      NetAppend(old(posted), StepRun(currentLevel, targetLevel));
    }
  }
}
