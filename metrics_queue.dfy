/**
 * The process-wide metrics queue: a FIFO of pending metrics plus the set of
 * identities logged so far, which only ever grows.
 *
 * `QueueState`, `LogStep` and `DrainStep` give the meaning of one `log` or
 * `get_metrics` call on the abstract state; the class `MetricsQueue` is the
 * object the callers share, and its methods are proved to perform exactly
 * those steps. `Replay` runs a whole sequence of calls, and the lemmas about
 * it state what holds across calls: nothing lost, nothing duplicated, the
 * logged set never shrinks, and FIFO order.
 */
module Queue {
  import opened PythonValues
  import opened EventMetrics

  /** The queue's contents: pending metrics, oldest first, and the identities
      of every metric ever appended. */
  datatype QueueState = QueueState(pending: seq<Metric>, logged: set<string>)

  /** The number of metrics `get_metrics(count)` pops from a queue holding
      `numPending` of them. `None` stands for an omitted `count`. A negative
      count pops nothing: the loop `range(0, count)` is then empty. */
  function BatchLength(count: Option<int>, numPending: nat): (k: nat)
    ensures k <= numPending
    ensures numPending == 0 ==> k == 0
    ensures (count.None? || count == Some(0)) ==> k == numPending
    ensures count.Some? && count.value > 0 ==> k == Min(count.value, numPending)
    ensures count.Some? && count.value < 0 ==> k == 0
  {
    if numPending == 0 then 0
    else match count
      case None => numPending
      case Some(c) =>
        if c == 0 || c > numPending then numPending
        else if c < 0 then 0
        else c
  }

  function Min(a: int, b: int): int {
    if a <= b then a else b
  }

  /** `log(metric, log_once)`: unless `log_once` is set and the metric's
      identity was logged before, the metric goes to the tail of the queue
      and its identity is recorded, whatever `log_once` says. */
  function LogStep(s: QueueState, m: Metric, logOnce: bool): (r: QueueState)
    ensures logOnce && Identity(m) in s.logged ==> r == s
    ensures !(logOnce && Identity(m) in s.logged) ==>
      |r.pending| == |s.pending| + 1 && r.pending[..|s.pending|] == s.pending &&
      r.pending[|s.pending|] == m && r.logged == s.logged + {Identity(m)}
    ensures s.logged <= r.logged && Identity(m) in r.logged
  {
    if logOnce && Identity(m) in s.logged then s
    else QueueState(s.pending + [m], s.logged + {Identity(m)})
  }

  /** `get_metrics(count)`: the batch popped from the head, and the state
      left behind. The batch followed by what remains is the old queue. */
  function DrainStep(s: QueueState, count: Option<int>): (r: (seq<Metric>, QueueState))
    ensures |r.0| == BatchLength(count, |s.pending|)
    ensures r.0 + r.1.pending == s.pending
    ensures r.1.logged == s.logged
  {
    var k := BatchLength(count, |s.pending|);
    assert s.pending[..k] + s.pending[k..] == s.pending;
    (s.pending[..k], s.(pending := s.pending[k..]))
  }

  /** The single queue shared by every producer and worker of a process. */
  class MetricsQueue {
    var pending: seq<Metric>
    var logged: set<string>

    function State(): QueueState
      reads this
    {
      QueueState(pending, logged)
    }

    constructor ()
      ensures pending == [] && logged == {}
    {
      pending := [];
      logged := {};
    }

    method Log(m: Metric, logOnce: bool)
      modifies this
      ensures State() == LogStep(old(State()), m, logOnce)
    {
      var identifier := Identity(m);
      if logOnce && identifier in logged {
        return;
      }
      pending := pending + [m];
      logged := logged + {identifier};
    }

    method GetMetrics(count: Option<int>) returns (metrics: seq<Metric>)
      modifies this
      ensures (metrics, State()) == DrainStep(old(State()), count)
    {
      metrics := [];
      var numPending := |pending|;
      if numPending != 0 {
        var n := if count.None? || count.value == 0 || count.value > numPending then numPending else count.value;
        assert BatchLength(count, numPending) == if n < 0 then 0 else n;
        var i := 0;
        while i < n
          invariant 0 <= i <= if n < 0 then 0 else n
          invariant n <= numPending
          invariant metrics + pending == old(pending)
          invariant |metrics| == i
          invariant logged == old(logged)
        {
          metrics := metrics + [pending[0]];
          pending := pending[1..];
          i := i + 1;
        }
        assert |metrics| == BatchLength(count, numPending);
        assert metrics == old(pending)[..|metrics|];
        assert pending == old(pending)[|metrics|..];
      }
    }
  }

  /** One call on the queue, as made by a producer or a worker. */
  datatype Op = LogOp(m: Metric, logOnce: bool) | GetOp(count: Option<int>)

  /** What a run of calls did: the metrics that were appended (not dropped),
      the concatenation of every batch handed out, and the final state. */
  datatype Trace = Trace(accepted: seq<Metric>, drained: seq<Metric>, final: QueueState)

  function Replay(s: QueueState, ops: seq<Op>): Trace
    decreases |ops|
  {
    if ops == [] then Trace([], [], s)
    else match ops[0]
      case LogOp(m, once) =>
        var t := Replay(LogStep(s, m, once), ops[1..]);
        var appended := if once && Identity(m) in s.logged then [] else [m];
        Trace(appended + t.accepted, t.drained, t.final)
      case GetOp(c) =>
        var (batch, s') := DrainStep(s, c);
        var t := Replay(s', ops[1..]);
        Trace(t.accepted, batch + t.drained, t.final)
  }

  /** Nothing is lost and nothing is handed out twice: what was pending plus
      what was appended equals, in order, what was handed out plus what is
      still pending. */
  lemma {:induction false} ReplayConserves(s: QueueState, ops: seq<Op>)
    ensures var t := Replay(s, ops); s.pending + t.accepted == t.drained + t.final.pending
    decreases |ops|
  {
    if ops != [] {
      match ops[0]
      case LogOp(m, once) =>
        var s' := LogStep(s, m, once);
        ReplayConserves(s', ops[1..]);
        if !(once && Identity(m) in s.logged) {
          assert s'.pending == s.pending + [m];
        }
      case GetOp(c) =>
        var (batch, s') := DrainStep(s, c);
        ReplayConserves(s', ops[1..]);
        var t := Replay(s', ops[1..]);
        calc {
          s.pending + t.accepted;
          (batch + s'.pending) + t.accepted;
          batch + (s'.pending + t.accepted);
        }
    }
  }

  /** The logged set never shrinks, and it holds the identity of every
      metric that was appended. */
  lemma {:induction false} ReplayLoggedGrows(s: QueueState, ops: seq<Op>)
    ensures var t := Replay(s, ops);
      s.logged <= t.final.logged &&
      forall i :: 0 <= i < |t.accepted| ==> Identity(t.accepted[i]) in t.final.logged
    decreases |ops|
  {
    if ops != [] {
      match ops[0]
      case LogOp(m, once) =>
        ReplayLoggedGrows(LogStep(s, m, once), ops[1..]);
      case GetOp(c) =>
        ReplayLoggedGrows(DrainStep(s, c).1, ops[1..]);
    }
  }

  /** Once an identity has been logged, every later `log_once` call for a
      metric with that identity is dropped, however many calls come between. */
  lemma LogOnceSuppressedForever(s: QueueState, ops: seq<Op>, m: Metric)
    requires Identity(m) in s.logged
    ensures var f := Replay(s, ops).final; LogStep(f, m, true) == f
  {
    ReplayLoggedGrows(s, ops);
  }

  /** Logging a metric whose identity was seen before, without `log_once`,
      still appends it. */
  lemma LogWithoutOnceAlwaysAppends(s: QueueState, m: Metric)
    ensures LogStep(s, m, false).pending == s.pending + [m]
  {
  }

  function LogAll(ms: seq<Metric>): seq<Op> {
    seq(|ms|, i requires 0 <= i < |ms| => LogOp(ms[i], false))
  }

  /** FIFO law: logging metrics without `log_once` and then asking for all
      of them returns them in the order they were logged. */
  lemma {:induction false} LogAllThenDrainAll(s: QueueState, ms: seq<Metric>)
    requires s.pending == []
    ensures var t := Replay(s, LogAll(ms) + [GetOp(None)]);
      t.accepted == ms && t.drained == ms && t.final.pending == []
  {
    var t := Replay(s, LogAll(ms) + [GetOp(None)]);
    AcceptedAll(s, ms);
    ReplayConserves(s, LogAll(ms) + [GetOp(None)]);
    assert s.pending + t.accepted == ms;
    assert t.drained + t.final.pending == t.drained;
  }

  /** Without `log_once`, every call appends, and the last call (asking for
      everything) empties the queue. */
  lemma {:induction false} AcceptedAll(s: QueueState, ms: seq<Metric>)
    ensures var t := Replay(s, LogAll(ms) + [GetOp(None)]);
      t.accepted == ms && t.final.pending == []
    decreases |ms|
  {
    var ops := LogAll(ms) + [GetOp(None)];
    if ms == [] {
      assert ops == [GetOp(None)];
    } else {
      assert ops[0] == LogOp(ms[0], false);
      assert ops[1..] == LogAll(ms[1..]) + [GetOp(None)];
      AcceptedAll(LogStep(s, ms[0], false), ms[1..]);
    }
  }
}
