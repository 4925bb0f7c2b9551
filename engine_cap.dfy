/** The frame driver: on each update it ends the previous update phase and
    begins the next one, on each render likewise, always with the time
    object it was built with. */
module EngineCap {
  import opened Base
  import opened SystemEnginesEngine

  /** The calls one `update()` adds when the capped engine is an engines
      engine: every `updateEnd` in reverse, then every `updateBegin` in
      order. */
  function UpdateCalls(engines: seq<EngineId>, time: nat): seq<EngineCall> {
    Calls(Reverse(engines), Phase.UpdateEnd, time) + Calls(engines, Phase.UpdateBegin, time)
  }

  function RenderCalls(engines: seq<EngineId>, time: nat): seq<EngineCall> {
    Calls(Reverse(engines), Phase.RenderEnd, time) + Calls(engines, Phase.RenderBegin, time)
  }

  /** `update()` touches only update hooks and `render()` only render hooks,
      every call with the stored time, each engine once per hook. */
  lemma {:induction false} FramePhasesStaySeparate(engines: seq<EngineId>, time: nat)
    ensures |UpdateCalls(engines, time)| == 2 * |engines| && |RenderCalls(engines, time)| == 2 * |engines|
    ensures forall i :: 0 <= i < |UpdateCalls(engines, time)| ==>
      IsUpdatePhase(UpdateCalls(engines, time)[i].phase) && UpdateCalls(engines, time)[i].time == time
    ensures forall i :: 0 <= i < |RenderCalls(engines, time)| ==>
      !IsUpdatePhase(RenderCalls(engines, time)[i].phase) && RenderCalls(engines, time)[i].time == time
    ensures forall i :: 0 <= i < |engines| ==>
      UpdateCalls(engines, time)[i] == EngineCall(engines[|engines| - 1 - i], Phase.UpdateEnd, time)
      && UpdateCalls(engines, time)[|engines| + i] == EngineCall(engines[i], Phase.UpdateBegin, time)
  {
    forall i | 0 <= i < |engines|
      ensures UpdateCalls(engines, time)[i] == EngineCall(engines[|engines| - 1 - i], Phase.UpdateEnd, time)
    {
      ReverseAt(engines, i);
    }
  }

  /** With a single engine, `update()` is that engine's `updateEnd` then its
      `updateBegin`, each once, and `render()` likewise. */
  lemma SingleEngineEndThenBegin(e: EngineId, time: nat)
    ensures UpdateCalls([e], time) == [EngineCall(e, Phase.UpdateEnd, time), EngineCall(e, Phase.UpdateBegin, time)]
    ensures RenderCalls([e], time) == [EngineCall(e, Phase.RenderEnd, time), EngineCall(e, Phase.RenderBegin, time)]
  {
    assert Reverse([e]) == [e] by {
      assert [e][1..] == [];
    }
  }

  /** Two updates in a row: the second one's end phase closes, in reverse,
      exactly the begin phase the first one opened. */
  lemma {:induction false} ConsecutiveUpdatesBracket(engines: seq<EngineId>, time: nat)
    ensures UpdateCalls(engines, time) + UpdateCalls(engines, time)
      == Calls(Reverse(engines), Phase.UpdateEnd, time)
         + Bracketed(engines, Phase.UpdateBegin, Phase.UpdateEnd, time)
         + Calls(engines, Phase.UpdateBegin, time)
  {
    BeginThenEndIsBracketed(engines, Phase.UpdateBegin, Phase.UpdateEnd, time);
  }

  class EngineCap {
    const engine: SystemEnginesEngine
    const time: nat

    constructor (engine: SystemEnginesEngine, time: nat)
      ensures this.engine == engine && this.time == time
    {
      this.engine := engine;
      this.time := time;
    }

    method Update()
      modifies engine.log
      ensures engine.log.calls == old(engine.log.calls) + UpdateCalls(engine.engines, time)
    {
      engine.UpdateEnd(time);
      engine.UpdateBegin(time);
    }

    method Render()
      modifies engine.log
      ensures engine.log.calls == old(engine.log.calls) + RenderCalls(engine.engines, time)
    {
      engine.RenderEnd(time);
      engine.RenderBegin(time);
    }
  }
}
