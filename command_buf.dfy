/**
 * The client's two-class command buffer (wwwroot/core/commandBuf.js):
 * commands enqueued with priority "hi" (system and sync commands) are
 * delivered before all others, each class in arrival order.
 */
module CommandBuffer {

  /** One call `enqueue(cmd, prio)`. */
  datatype Request<T> = Request(cmd: T, prio: string)

  /** The contents of both queues. */
  datatype Queues<T> = Queues(hi: seq<T>, lo: seq<T>)

  /** Only the exact string "hi" selects the high queue; "lo", the default, and anything else select the low one. */
  predicate IsHigh(prio: string) {
    prio == "hi"
  }

  /** The queues after one enqueue. */
  function Step<T>(q: Queues<T>, r: Request<T>): Queues<T> {
    if IsHigh(r.prio) then q.(hi := q.hi + [r.cmd]) else q.(lo := q.lo + [r.cmd])
  }

  /** The queues after a run of enqueues, in order. */
  function Run<T>(q: Queues<T>, rs: seq<Request<T>>): Queues<T>
    decreases |rs|
  {
    if rs == [] then q else Step(Run(q, rs[..|rs| - 1]), rs[|rs| - 1])
  }

  /** The commands of the high-priority requests, in request order. */
  function HighOf<T>(rs: seq<Request<T>>): seq<T>
    decreases |rs|
  {
    if rs == [] then []
    else HighOf(rs[..|rs| - 1]) + (if IsHigh(rs[|rs| - 1].prio) then [rs[|rs| - 1].cmd] else [])
  }

  /** The commands of the other requests, in request order. */
  function LowOf<T>(rs: seq<Request<T>>): seq<T>
    decreases |rs|
  {
    if rs == [] then []
    else LowOf(rs[..|rs| - 1]) + (if IsHigh(rs[|rs| - 1].prio) then [] else [rs[|rs| - 1].cmd])
  }

  /** All enqueued commands, in request order. */
  function CommandsOf<T>(rs: seq<Request<T>>): seq<T>
    decreases |rs|
  {
    if rs == [] then [] else CommandsOf(rs[..|rs| - 1]) + [rs[|rs| - 1].cmd]
  }

  /** What drain returns for given queue contents: the whole high queue, then the whole low queue. */
  function Drained<T>(q: Queues<T>): (r: seq<T>)
    ensures |r| == |q.hi| + |q.lo|
    ensures r[..|q.hi|] == q.hi && r[|q.hi|..] == q.lo
  {
    q.hi + q.lo
  }

  /** FIFO within each class: a run of enqueues appends exactly the high commands to hi and the others to lo, in order. */
  lemma {:induction false} RunAppends<T>(q: Queues<T>, rs: seq<Request<T>>)
    ensures Run(q, rs) == Queues(q.hi + HighOf(rs), q.lo + LowOf(rs))
    decreases |rs|
  {
    if rs != [] {
      RunAppends(q, rs[..|rs| - 1]);
    }
  }

  /** Every enqueued command lands in exactly one queue: no command is lost or duplicated. */
  lemma {:induction false} ClassesPartition<T>(rs: seq<Request<T>>)
    ensures multiset(HighOf(rs)) + multiset(LowOf(rs)) == multiset(CommandsOf(rs))
    ensures |HighOf(rs)| + |LowOf(rs)| == |rs|
    decreases |rs|
  {
    if rs != [] {
      ClassesPartition(rs[..|rs| - 1]);
    }
  }

  /**
   * Draining an empty buffer after a run of enqueues yields the high commands
   * followed by the low ones, a permutation of everything enqueued.
   */
  lemma {:induction false} DrainAfterRun<T>(rs: seq<Request<T>>)
    ensures Drained(Run(Queues([], []), rs)) == HighOf(rs) + LowOf(rs)
    ensures multiset(Drained(Run(Queues([], []), rs))) == multiset(CommandsOf(rs))
  {
    RunAppends(Queues([], []), rs);
    assert [] + HighOf(rs) == HighOf(rs) && [] + LowOf(rs) == LowOf(rs);
    var d := Drained(Run(Queues([], []), rs));
    assert d == HighOf(rs) + LowOf(rs);
    ClassesPartition(rs);
    assert multiset(d) == multiset(HighOf(rs)) + multiset(LowOf(rs));
  }

  class CommandBuf<T> {
    var hi: seq<T>
    var lo: seq<T>

    function Contents(): Queues<T>
      reads this
    {
      Queues(hi, lo)
    }

    constructor()
      ensures Contents() == Queues([], [])
    {
      hi, lo := [], [];
    }

    /** enqueue(cmd, prio = 'lo'): appends to hi when prio is "hi", to lo otherwise. */
    method Enqueue(cmd: T, prio: string := "lo")
      modifies this
      ensures Contents() == Step(old(Contents()), Request(cmd, prio))
      ensures IsHigh(prio) ==> hi == old(hi) + [cmd] && lo == old(lo)
      ensures !IsHigh(prio) ==> lo == old(lo) + [cmd] && hi == old(hi)
    {
      if IsHigh(prio) {
        hi := hi + [cmd];
      } else {
        lo := lo + [cmd];
      }
    }

    /** drain(): returns hi followed by lo and empties both. */
    method Drain() returns (r: seq<T>)
      modifies this
      ensures r == Drained(old(Contents()))
      ensures hi == [] && lo == []
    {
      var a := hi;
      hi := [];
      var b := lo;
      lo := [];
      r := a + b;
    }
  }

  /** A high command enqueued last is still drained first; a second drain is empty. */
  method DrainScenario() returns (first: seq<string>, second: seq<string>)
    ensures first == ["sync", "move", "attack"]
    ensures second == []
  {
    var buf := new CommandBuf<string>();
    buf.Enqueue("move");
    buf.Enqueue("attack", "lo");
    buf.Enqueue("sync", "hi");
    first := buf.Drain();
    second := buf.Drain();
  }
}
