/** An engine made of engines: the begin hooks run over the list in order,
    the end hooks over the reversed list, so a begin phase followed by its
    end phase brackets the engines like nested parentheses. Engines are
    identities; the hooks they receive are recorded in a shared log. */
module SystemEnginesEngine {
  import opened Base

  /** An engine identity. */
  type EngineId = nat

  datatype Phase = UpdateBegin | UpdateEnd | RenderBegin | RenderEnd

  predicate IsUpdatePhase(p: Phase) {
    p == UpdateBegin || p == UpdateEnd
  }

  /** One hook call received by an engine, with the time object's identity. */
  datatype EngineCall = EngineCall(engine: EngineId, phase: Phase, time: nat)

  /** The hook calls the engines of the program receive, oldest first. */
  class EngineLog {
    var calls: seq<EngineCall>

    constructor ()
      ensures calls == []
    {
      calls := [];
    }

    method Record(call: EngineCall)
      modifies this
      ensures calls == old(calls) + [call]
    {
      calls := calls + [call];
    }
  }

  /** The calls of one phase hook run over `engines` in list order. */
  function Calls(engines: seq<EngineId>, phase: Phase, time: nat): (r: seq<EngineCall>)
    ensures |r| == |engines|
    ensures forall i :: 0 <= i < |engines| ==> r[i] == EngineCall(engines[i], phase, time)
  {
    if engines == [] then [] else Calls(engines[..|engines| - 1], phase, time) + [EngineCall(engines[|engines| - 1], phase, time)]
  }

  /** Every engine once per phase, all with the same time and that phase
      only, and no call at all for an empty list. */
  lemma CallsOnePhase(engines: seq<EngineId>, phase: Phase, time: nat)
    ensures forall i :: 0 <= i < |Calls(engines, phase, time)| ==>
      Calls(engines, phase, time)[i].phase == phase && Calls(engines, phase, time)[i].time == time
    ensures engines == [] ==> Calls(engines, phase, time) == []
  {
  }

  /** The properly nested bracket sequence over `engines`: open the first,
      bracket the rest, close the first. */
  function Bracketed(engines: seq<EngineId>, open: Phase, close: Phase, time: nat): seq<EngineCall> {
    if engines == [] then []
    else [EngineCall(engines[0], open, time)] + Bracketed(engines[1..], open, close, time) + [EngineCall(engines[0], close, time)]
  }

  lemma {:induction false} CallsAppend(a: seq<EngineId>, b: seq<EngineId>, phase: Phase, time: nat)
    ensures Calls(a + b, phase, time) == Calls(a, phase, time) + Calls(b, phase, time)
  {
    assert |Calls(a + b, phase, time)| == |Calls(a, phase, time) + Calls(b, phase, time)|;
    forall i | 0 <= i < |a + b|
      ensures Calls(a + b, phase, time)[i] == (Calls(a, phase, time) + Calls(b, phase, time))[i]
    {
      if i >= |a| {
        assert (a + b)[i] == b[i - |a|];
      }
    }
  }

  lemma Regroup<T>(a: seq<T>, b: seq<T>, c: seq<T>, d: seq<T>)
    ensures a + b + (c + d) == a + (b + c) + d
  {
  }

  /** A begin phase followed by the matching end phase is properly nested:
      e1 ... en then en ... e1. */
  lemma {:induction false} BeginThenEndIsBracketed(engines: seq<EngineId>, open: Phase, close: Phase, time: nat)
    ensures Calls(engines, open, time) + Calls(Reverse(engines), close, time) == Bracketed(engines, open, close, time)
  {
    if engines != [] {
      var e := engines[0];
      var rest := engines[1..];
      BeginThenEndIsBracketed(rest, open, close, time);
      assert engines == [e] + rest;
      assert Reverse(engines) == Reverse(rest) + [e];
      CallsAppend([e], rest, open, time);
      CallsAppend(Reverse(rest), [e], close, time);
      var opening := Calls([e], open, time);
      var closing := Calls([e], close, time);
      assert opening == [EngineCall(e, open, time)];
      assert closing == [EngineCall(e, close, time)];
      calc {
        Calls(engines, open, time) + Calls(Reverse(engines), close, time);
        opening + Calls(rest, open, time) + (Calls(Reverse(rest), close, time) + closing);
        { Regroup(opening, Calls(rest, open, time), Calls(Reverse(rest), close, time), closing); }
        opening + (Calls(rest, open, time) + Calls(Reverse(rest), close, time)) + closing;
        opening + Bracketed(rest, open, close, time) + closing;
        { assert engines[1..] == rest; }
        Bracketed(engines, open, close, time);
      }
    }
  }

  /** Index form of the bracket discipline: the k-th end call goes to the
      engine whose begin call came k-th from last. */
  lemma EndMirrorsBegin(engines: seq<EngineId>, open: Phase, close: Phase, time: nat, k: nat)
    requires k < |engines|
    ensures Calls(Reverse(engines), close, time)[k].engine == Calls(engines, open, time)[|engines| - 1 - k].engine
  {
    ReverseAt(engines, k);
  }

  class SystemEnginesEngine {
    const engines: seq<EngineId>
    const log: EngineLog

    constructor (engines: seq<EngineId>, log: EngineLog)
      ensures this.engines == engines && this.log == log
    {
      this.engines := engines;
      this.log := log;
    }

    /** A begin hook: each engine once, in list order. */
    method RunForward(phase: Phase, time: nat)
      modifies log
      ensures log.calls == old(log.calls) + Calls(engines, phase, time)
    {
      for i := 0 to |engines|
        invariant log.calls == old(log.calls) + Calls(engines[..i], phase, time)
      {
        assert engines[..i + 1][..i] == engines[..i];
        log.Record(EngineCall(engines[i], phase, time));
      }
      assert engines[..|engines|] == engines;
    }

    /** An end hook: each engine once, over the reversed list. */
    method RunReversed(phase: Phase, time: nat)
      modifies log
      ensures log.calls == old(log.calls) + Calls(Reverse(engines), phase, time)
    {
      var reversed := Reverse(engines);
      for i := 0 to |reversed|
        invariant log.calls == old(log.calls) + Calls(reversed[..i], phase, time)
      {
        assert reversed[..i + 1][..i] == reversed[..i];
        log.Record(EngineCall(reversed[i], phase, time));
      }
      assert reversed[..|reversed|] == reversed;
    }

    method UpdateBegin(time: nat)
      modifies log
      ensures log.calls == old(log.calls) + Calls(engines, Phase.UpdateBegin, time)
    {
      RunForward(Phase.UpdateBegin, time);
    }

    method UpdateEnd(time: nat)
      modifies log
      ensures log.calls == old(log.calls) + Calls(Reverse(engines), Phase.UpdateEnd, time)
    {
      RunReversed(Phase.UpdateEnd, time);
    }

    method RenderBegin(time: nat)
      modifies log
      ensures log.calls == old(log.calls) + Calls(engines, Phase.RenderBegin, time)
    {
      RunForward(Phase.RenderBegin, time);
    }

    method RenderEnd(time: nat)
      modifies log
      ensures log.calls == old(log.calls) + Calls(Reverse(engines), Phase.RenderEnd, time)
    {
      RunReversed(Phase.RenderEnd, time);
    }
  }
}
