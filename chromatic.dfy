/** The chromatic buff: a comment whose colour keeps changing. Every third
    tick its three colour channels each take one step of a bouncing
    transition, and the resulting colour is added to the display. A channel
    moves by its velocity, bounces off 255 and 64 with a fresh speed, and
    may pause. The law's strategies are streams of drawn values; the values
    a step would draw reach the model as parameters. */
module Chromatic {

  /** Ticks skipped between two acting ticks. */
  const UpdateSkipPeriod: int := 2

  const MaxValue: int := 255
  const MinValue: int := 64

  /** What one counter step does: the next counter, and whether the tick
      acts on the colour. */
  datatype SkipStep = SkipStep(next: int, acts: bool)

  function Skip(updateSkipTick: int): (r: SkipStep)
    ensures r.acts <==> updateSkipTick >= UpdateSkipPeriod
    ensures r.acts ==> r.next == 0
    ensures !r.acts ==> r.next == updateSkipTick + 1
  {
    if updateSkipTick < UpdateSkipPeriod then SkipStep(updateSkipTick + 1, false) else SkipStep(0, true)
  }

  /** The counter after `n` ticks. */
  function CounterAfter(updateSkipTick: int, n: nat): int {
    if n == 0 then updateSkipTick else Skip(CounterAfter(updateSkipTick, n - 1)).next
  }

  /** From the default counter 0 the counter stays in 0..2, and the `n`-th
      tick (counting from 1) acts exactly when `n` is a multiple of 3. */
  lemma {:induction false} ActsEveryThirdTick(n: nat)
    ensures CounterAfter(0, n) == n % 3
    ensures 0 <= CounterAfter(0, n) <= UpdateSkipPeriod
    ensures Skip(CounterAfter(0, n)).acts <==> (n + 1) % 3 == 0
  {
    if n > 0 {
      ActsEveryThirdTick(n - 1);
    }
  }

  /** `Math.round`: the nearest integer, halves rounded up. */
  function Round(x: real): (r: int)
    ensures r as real <= x + 0.5 < r as real + 1.0
  {
    (x + 0.5).Floor
  }

  /** The values the law would hand out during one step: the next speed,
      whether to pause, and the next pause interval. */
  datatype Draws = Draws(speed: real, pause: bool, pauseInterval: real)

  datatype Transition = Transition(value: real, velocity: real, pauseInterval: real)

  /** One `tick` of a bouncing transition with the elapsed milliseconds. */
  function TransitionTick(t: Transition, elapsed: real, draws: Draws): Transition {
    var pauseLeft := t.pauseInterval - elapsed * UpdateSkipPeriod as real;
    if pauseLeft > 0.0 then t.(pauseInterval := pauseLeft)
    else
      var moved := t.value + t.velocity * UpdateSkipPeriod as real;
      var bounced :=
        if moved > MaxValue as real then Transition(MaxValue as real, -draws.speed, pauseLeft)
        else if moved < MinValue as real then Transition(MinValue as real, draws.speed, pauseLeft)
        else Transition(moved, t.velocity, pauseLeft);
      if draws.pause then bounced.(pauseInterval := draws.pauseInterval) else bounced
  }

  predicate InRange(value: real) {
    MinValue as real <= value <= MaxValue as real
  }

  /** One step: while paused only the pause shrinks; otherwise the value
      moves by twice the velocity and is clamped, a bounce off the top
      turning the velocity down and one off the bottom turning it up. */
  lemma TransitionTickCases(t: Transition, elapsed: real, draws: Draws)
    ensures var r := TransitionTick(t, elapsed, draws);
      && (t.pauseInterval - elapsed * 2.0 > 0.0 ==>
            r.value == t.value && r.velocity == t.velocity && r.pauseInterval == t.pauseInterval - elapsed * 2.0)
      && (t.pauseInterval - elapsed * 2.0 <= 0.0 ==>
            (t.value + t.velocity * 2.0 > 255.0 ==> r.value == 255.0 && r.velocity == -draws.speed)
            && (t.value + t.velocity * 2.0 < 64.0 ==> r.value == 64.0 && r.velocity == draws.speed)
            && (InRange(t.value + t.velocity * 2.0) ==> r.value == t.value + t.velocity * 2.0 && r.velocity == t.velocity)
            && (draws.pause ==> r.pauseInterval == draws.pauseInterval))
  {
  }

  /** A value in [64, 255] stays there, paused or not. */
  lemma TickKeepsRange(t: Transition, elapsed: real, draws: Draws)
    requires InRange(t.value)
    ensures InRange(TransitionTick(t, elapsed, draws).value)
  {
  }

  /** Ticks in order. */
  function TransitionTicks(t: Transition, steps: seq<(real, Draws)>): Transition {
    if steps == [] then t
    else TransitionTick(TransitionTicks(t, steps[..|steps| - 1]), steps[|steps| - 1].0, steps[|steps| - 1].1)
  }

  /** Over any run of ticks the value stays in [64, 255], and so does the
      rounded value `getValue` reports. */
  lemma {:induction false} TicksKeepRange(t: Transition, steps: seq<(real, Draws)>)
    requires InRange(t.value)
    ensures InRange(TransitionTicks(t, steps).value)
    ensures MinValue <= Round(TransitionTicks(t, steps).value) <= MaxValue
  {
    if steps != [] {
      TicksKeepRange(t, steps[..|steps| - 1]);
      TickKeepsRange(TransitionTicks(t, steps[..|steps| - 1]), steps[|steps| - 1].0, steps[|steps| - 1].1);
    }
  }

  class BouncingColorTransition {
    var value: real
    var velocity: real
    var pauseInterval: real

    function State(): Transition
      reads this
    {
      Transition(value, velocity, pauseInterval)
    }

    /** The value drawn between 64 and 255 and the signed speed are given. */
    constructor (value: real, velocity: real, pauseInterval: real)
      ensures State() == Transition(value, velocity, pauseInterval)
    {
      this.value := value;
      this.velocity := velocity;
      this.pauseInterval := pauseInterval;
    }

    /** `getValue()`: the value rounded; within [64, 255] when the value is. */
    function GetValue(): (r: int)
      reads this
      ensures InRange(value) ==> MinValue <= r <= MaxValue
      ensures r as real <= value + 0.5 < r as real + 1.0
    {
      Round(value)
    }

    method Tick(elapsed: real, draws: Draws)
      modifies this
      ensures State() == TransitionTick(old(State()), elapsed, draws)
    {
      pauseInterval := pauseInterval - elapsed * UpdateSkipPeriod as real;
      if pauseInterval > 0.0 {
        return;
      }
      value := value + velocity * UpdateSkipPeriod as real;
      if value > MaxValue as real {
        value := MaxValue as real;
        velocity := -draws.speed;
      } else if value < MinValue as real {
        value := MinValue as real;
        velocity := draws.speed;
      }
      if draws.pause {
        pauseInterval := draws.pauseInterval;
      }
    }
  }

  /** `Phaser.Color.RGBtoString(r, g, b)`: the colour of three channels. */
  datatype Rgb = Rgb(red: int, green: int, blue: int)

  /** The display of an updating comment; it records the colours added. */
  class ColoredDisplay {
    var addedColors: seq<Rgb>

    constructor ()
      ensures addedColors == []
    {
      addedColors := [];
    }

    method AddColor(color: Rgb)
      modifies this
      ensures addedColors == old(addedColors) + [color]
    {
      addedColors := addedColors + [color];
    }
  }

  class Chromatic {
    const redTransition: BouncingColorTransition
    const blueTransition: BouncingColorTransition
    const greenTransition: BouncingColorTransition
    var updateSkipTick: int

    /** The three channels are separate transitions. */
    ghost predicate Valid()
      reads this
    {
      redTransition != greenTransition && greenTransition != blueTransition && redTransition != blueTransition
    }

    constructor (redTransition: BouncingColorTransition, blueTransition: BouncingColorTransition,
                 greenTransition: BouncingColorTransition, updateSkipTick: int)
      requires redTransition != greenTransition && greenTransition != blueTransition && redTransition != blueTransition
      ensures Valid() && this.updateSkipTick == updateSkipTick
      ensures this.redTransition == redTransition && this.greenTransition == greenTransition
      ensures this.blueTransition == blueTransition
    {
      this.redTransition := redTransition;
      this.blueTransition := blueTransition;
      this.greenTransition := greenTransition;
      this.updateSkipTick := updateSkipTick;
    }

    /** `tick(commentEntity, time)`: on a skipped tick only the counter
        moves; on an acting one each channel steps once and the colour of
        the three rounded values is added to the display. */
    method Tick(display: ColoredDisplay, elapsed: real, red: Draws, green: Draws, blue: Draws)
      requires Valid()
      modifies this, redTransition, greenTransition, blueTransition, display
      ensures Valid()
      ensures var step := Skip(old(updateSkipTick));
        && updateSkipTick == step.next
        && (!step.acts ==>
              redTransition.State() == old(redTransition.State())
              && greenTransition.State() == old(greenTransition.State())
              && blueTransition.State() == old(blueTransition.State())
              && display.addedColors == old(display.addedColors))
        && (step.acts ==>
              redTransition.State() == TransitionTick(old(redTransition.State()), elapsed, red)
              && greenTransition.State() == TransitionTick(old(greenTransition.State()), elapsed, green)
              && blueTransition.State() == TransitionTick(old(blueTransition.State()), elapsed, blue)
              && display.addedColors == old(display.addedColors)
                   + [Rgb(redTransition.GetValue(), greenTransition.GetValue(), blueTransition.GetValue())])
    {
      if updateSkipTick < UpdateSkipPeriod {
        updateSkipTick := updateSkipTick + 1;
        return;
      }
      updateSkipTick := 0;
      redTransition.Tick(elapsed, red);
      greenTransition.Tick(elapsed, green);
      blueTransition.Tick(elapsed, blue);
      var color := Rgb(redTransition.GetValue(), greenTransition.GetValue(), blueTransition.GetValue());
      display.AddColor(color);
    }

    /** `set(entity)`: nothing. */
    method Set()
      ensures unchanged(this)
    {
    }
  }
}
