/**
 * The fixed-step tick model of the client (createModel in
 * wwwroot/core/model.js): a running flag, the simulated time, a set of
 * tick listeners called once per tick, and the timing statistics of the
 * last loop step. Listeners are opaque handles; a tick returns the calls
 * it makes, in order. The wall clock of a loop step is an input.
 */
module TickModel {
  import opened Seqs

  /** A registered tick function. */
  type Listener = nat

  /** One call `listener(dtMs / 1000, stats)` made by a tick. */
  datatype Call = Call(listener: Listener, dtSec: real)

  /** Ticks per second when none is given. */
  const DefaultTps: real := 20.0

  /** The calls one tick makes: every listener in registration order, with the step in seconds. */
  function Invocations(ls: seq<Listener>, dtSec: real): (r: seq<Call>)
    ensures |r| == |ls|
    ensures forall i :: 0 <= i < |r| ==> r[i].listener == ls[i] && r[i].dtSec == dtSec
    decreases |ls|
  {
    if ls == [] then [] else Invocations(ls[..|ls| - 1], dtSec) + [Call(ls[|ls| - 1], dtSec)]
  }

  /** With a set of listeners, a tick calls each registered listener exactly once and nothing else. */
  lemma EachListenerOnce(ls: seq<Listener>, dtSec: real)
    requires Distinct(ls)
    ensures var r := Invocations(ls, dtSec);
            && (forall l :: l in ls <==> exists i :: 0 <= i < |r| && r[i].listener == l)
            && (forall i, j :: 0 <= i < j < |r| ==> r[i].listener != r[j].listener)
  {
    var r := Invocations(ls, dtSec);
    forall l | l in ls ensures exists i :: 0 <= i < |r| && r[i].listener == l {
      var i :| 0 <= i < |ls| && ls[i] == l;
      assert r[i].listener == l;
    }
  }

  class Model {
    /** `state.runing`. */
    var running: bool
    const fixedDtMs: real
    var timeMs: real
    /** The listener set, in insertion order. */
    var listeners: seq<Listener>
    var lastTickMs: real
    /** `stats.tpsBudhetMs`: what is left of the step after the last tick's work. */
    var budgetMs: real

    ghost predicate Valid()
      reads this
    {
      Distinct(listeners)
    }

    constructor(tps: real := DefaultTps)
      requires tps != 0.0
      ensures Valid()
      ensures !running && fixedDtMs * tps == 1000.0 && timeMs == 0.0 && listeners == []
      ensures lastTickMs == 0.0 && budgetMs == 0.0
    {
      running := false;
      fixedDtMs := 1000.0 / tps;
      timeMs := 0.0;
      listeners := [];
      lastTickMs := 0.0;
      budgetMs := 0.0;
    }

    /** onTick(f): registering a listener again keeps a single registration. */
    method OnTick(f: Listener)
      requires Valid()
      modifies this
      ensures Valid()
      ensures listeners == Insert(old(listeners), f)
      ensures f in listeners
      ensures running == old(running) && timeMs == old(timeMs)
      ensures lastTickMs == old(lastTickMs) && budgetMs == old(budgetMs)
    {
      if f !in listeners {
        listeners := listeners + [f];
      }
    }

    /** tick(dtMs): advance the simulated time by exactly dtMs and call every listener. */
    method Tick(dtMs: real := fixedDtMs) returns (calls: seq<Call>)
      modifies this
      ensures timeMs == old(timeMs) + dtMs
      ensures calls == Invocations(listeners, dtMs / 1000.0)
      ensures running == old(running) && listeners == old(listeners)
      ensures lastTickMs == old(lastTickMs) && budgetMs == old(budgetMs)
    {
      timeMs := timeMs + dtMs;
      calls := [];
      for i := 0 to |listeners|
        invariant calls == Invocations(listeners[..i], dtMs / 1000.0)
      {
        assert listeners[..i + 1][..i] == listeners[..i];
        calls := calls + [Call(listeners[i], dtMs / 1000.0)];
      }
      assert listeners[..|listeners|] == listeners;
    }

    /**
     * One run of `loop`: nothing once stopped; otherwise a tick of fixedDtMs,
     * after which the tick's measured duration and the remaining budget are
     * recorded.
     */
    method LoopStep(elapsedMs: real) returns (calls: seq<Call>)
      modifies this
      ensures !old(running) ==> (calls == [] && timeMs == old(timeMs) &&
                                 lastTickMs == old(lastTickMs) && budgetMs == old(budgetMs))
      ensures old(running) ==> (calls == Invocations(listeners, fixedDtMs / 1000.0) &&
                                timeMs == old(timeMs) + fixedDtMs &&
                                lastTickMs == elapsedMs && budgetMs == fixedDtMs - lastTickMs)
      ensures running == old(running) && listeners == old(listeners)
    {
      if !running {
        return [];
      }
      calls := Tick();
      lastTickMs := elapsedMs;
      budgetMs := fixedDtMs - lastTickMs;
    }

    /** start(): a no-op when already running; otherwise set running and run the first loop step. */
    method Start(elapsedMs: real) returns (calls: seq<Call>)
      modifies this
      ensures running
      ensures old(running) ==> (calls == [] && timeMs == old(timeMs) &&
                                lastTickMs == old(lastTickMs) && budgetMs == old(budgetMs))
      ensures !old(running) ==> (calls == Invocations(listeners, fixedDtMs / 1000.0) &&
                                 timeMs == old(timeMs) + fixedDtMs &&
                                 lastTickMs == elapsedMs && budgetMs == fixedDtMs - elapsedMs)
      ensures listeners == old(listeners)
    {
      if running {
        return [];
      }
      running := true;
      calls := LoopStep(elapsedMs);
    }

    /** stop(): later loop steps do nothing. */
    method Stop()
      modifies this
      ensures !running
      ensures timeMs == old(timeMs) && listeners == old(listeners)
      ensures lastTickMs == old(lastTickMs) && budgetMs == old(budgetMs)
    {
      running := false;
    }
  }

  /** At the default rate two ticks advance the time by 100 ms, and a listener registered twice is called once per tick. */
  method TickScenario() returns (time: real, calls: seq<Call>)
    ensures time == 100.0
    ensures calls == [Call(7, 0.05)]
  {
    var m := new Model();
    m.OnTick(7);
    m.OnTick(7);
    var _ := m.Tick();
    calls := m.Tick();
    time := m.timeMs;
  }

  /** A stopped model's loop step ticks no more. */
  method StopScenario() returns (first: seq<Call>, later: seq<Call>)
    ensures |first| == 1 && later == []
  {
    var m := new Model(10.0);
    m.OnTick(1);
    first := m.Start(3.0);
    m.Stop();
    later := m.LoopStep(2.0);
  }
}
