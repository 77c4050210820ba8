/**
 * The dispatch worker: a halt flag, a one-time capability check on the
 * server version, and a loop that drains at most `DispatchBatchSize`
 * metrics from the queue per round and hands each non-empty batch to a
 * delivery action whose failure is ignored.
 *
 * The thread's timing is abstracted into a finite schedule of ticks: tick i
 * says whether the delivery attempted in round i fails, and whether `halt`
 * is called while the worker waits at the end of that round.
 */
module Worker {
  import opened PythonValues
  import opened EventMetrics
  import opened Queue

  /** The most metrics sent in one request; the server rejects more. */
  const DispatchBatchSize: int := 10

  /** The oldest server version that accepts metrics, (7, 4, 0). */
  const MinimumServerVersion: seq<int> := [7, 4, 0]

  /** Python's `<` on tuples of integers: the first differing position
      decides, and a proper prefix is smaller. */
  predicate TupleLess(a: seq<int>, b: seq<int>): (less: bool)
    ensures less ==> a != b
    ensures less ==> b != [] && (a == [] || a[0] <= b[0])
    decreases |a|
  {
    if b == [] then false
    else if a == [] then true
    else if a[0] != b[0] then a[0] < b[0]
    else TupleLess(a[1..], b[1..])
  }

  /** The gate at the top of `run`: the server reports a version, the
      version is a non-empty tuple, and it is at least (7, 4, 0). `None`
      stands for a connection without server capabilities or without a
      version. */
  predicate MetricsSupported(version: Option<seq<int>>): (ok: bool)
    ensures ok ==> version.Some? && version.value != [] && version.value[0] >= 7
  {
    version.Some? && version.value != [] && !TupleLess(version.value, MinimumServerVersion)
  }

  /** The gate written out position by position. */
  lemma GateExplicit(v: seq<int>)
    ensures MetricsSupported(Some(v)) <==>
      |v| >= 1 && (v[0] > 7 || (v[0] == 7 && |v| >= 2 &&
        (v[1] > 4 || (v[1] == 4 && |v| >= 3 && v[2] >= 0))))
  {
    var m := MinimumServerVersion;
    if |v| >= 1 && v[0] == 7 {
      assert TupleLess(v, m) == TupleLess(v[1..], m[1..]);
      if |v| >= 2 && v[1] == 4 {
        assert TupleLess(v[1..], m[1..]) == TupleLess(v[2..], m[2..]);
        assert m[2..] == [0];
        if |v| >= 3 {
          assert v[2..][0] == v[2];
          assert m[2..][1..] == [];
          assert !TupleLess(v[2..][1..], m[2..][1..]);
        }
      }
    }
  }

  /** `TupleLess` is transitive. */
  lemma {:induction false} TupleLessTransitive(a: seq<int>, b: seq<int>, c: seq<int>)
    requires TupleLess(a, b) && TupleLess(b, c)
    ensures TupleLess(a, c)
    decreases |a|
  {
    if a != [] && a[0] == b[0] && b[0] == c[0] {
      TupleLessTransitive(a[1..], b[1..], c[1..]);
    }
  }

  /** Any two tuples are equal or one is smaller. */
  lemma {:induction false} TupleLessTotal(a: seq<int>, b: seq<int>)
    ensures TupleLess(a, b) || a == b || TupleLess(b, a)
    decreases |a|
  {
    if a != [] && b != [] && a[0] == b[0] {
      TupleLessTotal(a[1..], b[1..]);
      if a[1..] == b[1..] {
        assert a == [a[0]] + a[1..] && b == [b[0]] + b[1..];
      }
    }
  }

  /** A server at least as new as a supported one is supported too. */
  lemma GateMonotone(v: seq<int>, w: seq<int>)
    requires MetricsSupported(Some(v))
    requires !TupleLess(w, v)
    ensures MetricsSupported(Some(w))
  {
    if TupleLess(w, MinimumServerVersion) {
      TupleLessTotal(w, v);
      if w != v {
        TupleLessTransitive(v, w, MinimumServerVersion);
      }
    }
  }

  /** One round of the worker's schedule. */
  datatype Tick = Tick(deliveryFails: bool, haltRequested: bool)

  /** One delivery attempt: the batch handed over and whether it failed. */
  datatype Delivery = Delivery(batch: seq<Metric>, failed: bool)

  /** What a run did: the deliveries attempted, the queue left behind, the
      halt flag at the end, and the number of rounds. */
  datatype RunResult = RunResult(deliveries: seq<Delivery>, final: QueueState, halted: bool, rounds: nat)

  /** The loop of `run`, round by round, while not halted and while the
      schedule lasts. */
  function Loop(s: QueueState, halted: bool, ticks: seq<Tick>): (r: RunResult)
    ensures |r.deliveries| <= r.rounds <= |ticks|
    decreases |ticks|
  {
    if halted || ticks == [] then RunResult([], s, halted, 0)
    else
      var (batch, s') := DrainStep(s, Some(DispatchBatchSize));
      var rest := Loop(s', ticks[0].haltRequested, ticks[1..]);
      var sent := if batch == [] then [] else [Delivery(batch, ticks[0].deliveryFails)];
      RunResult(sent + rest.deliveries, rest.final, rest.halted, rest.rounds + 1)
  }

  /** `run`: the version gate, then the loop. */
  function RunSpec(s: QueueState, halted: bool, version: Option<seq<int>>, ticks: seq<Tick>): (r: RunResult)
    ensures |r.deliveries| <= r.rounds <= |ticks|
    ensures !MetricsSupported(version) ==> r.final == s && r.deliveries == [] && r.rounds == 0 && r.halted == halted
  {
    if !MetricsSupported(version) then RunResult([], s, halted, 0)
    else Loop(s, halted, ticks)
  }

  /** The batches of a run of deliveries, in order. */
  function Batches(ds: seq<Delivery>): seq<seq<Metric>>
    decreases |ds|
  {
    if ds == [] then [] else [ds[0].batch] + Batches(ds[1..])
  }

  /** Every metric handed over by a run of deliveries, in order. */
  function Sent(ds: seq<Delivery>): seq<Metric>
    decreases |ds|
  {
    if ds == [] then [] else ds[0].batch + Sent(ds[1..])
  }

  /** One round of the loop, unfolded: the drain, the delivery of a
      non-empty batch, and the rounds that follow. */
  lemma LoopRound(s: QueueState, ticks: seq<Tick>)
    requires ticks != []
    ensures var (batch, s') := DrainStep(s, Some(DispatchBatchSize));
      var rest := Loop(s', ticks[0].haltRequested, ticks[1..]);
      var r := Loop(s, false, ticks);
      r.deliveries == (if batch == [] then [] else [Delivery(batch, ticks[0].deliveryFails)]) + rest.deliveries &&
      r.final == rest.final && r.halted == rest.halted && r.rounds == rest.rounds + 1
  {
  }

  /** `LoopRound` for the round at position `i` of a schedule. */
  lemma LoopRoundAt(s: QueueState, ticks: seq<Tick>, i: nat)
    requires i < |ticks|
    ensures var (batch, s') := DrainStep(s, Some(DispatchBatchSize));
      var rest := Loop(s', ticks[i].haltRequested, ticks[i + 1..]);
      var r := Loop(s, false, ticks[i..]);
      r.deliveries == (if batch == [] then [] else [Delivery(batch, ticks[i].deliveryFails)]) + rest.deliveries &&
      r.final == rest.final && r.halted == rest.halted
  {
    LoopRound(s, ticks[i..]);
    assert ticks[i..][1..] == ticks[i + 1..];
  }

  lemma SentCons(d: Delivery, ds: seq<Delivery>)
    ensures Sent([d] + ds) == d.batch + Sent(ds)
    ensures Batches([d] + ds) == [d.batch] + Batches(ds)
  {
    assert ([d] + ds)[1..] == ds;
  }

  /** The batches handed over, in order, followed by what is left on the
      queue, are exactly what was pending: nothing lost, nothing sent twice.
      The logged set is untouched. */
  lemma {:induction false} LoopConserves(s: QueueState, halted: bool, ticks: seq<Tick>)
    ensures var r := Loop(s, halted, ticks);
      Sent(r.deliveries) + r.final.pending == s.pending &&
      r.final.logged == s.logged
    decreases |ticks|
  {
    if !halted && ticks != [] {
      var (batch, s') := DrainStep(s, Some(DispatchBatchSize));
      var rest := Loop(s', ticks[0].haltRequested, ticks[1..]);
      var r := Loop(s, halted, ticks);
      LoopRound(s, ticks);
      LoopConserves(s', ticks[0].haltRequested, ticks[1..]);
      if batch != [] {
        SentCons(Delivery(batch, ticks[0].deliveryFails), rest.deliveries);
        calc {
          Sent(r.deliveries) + r.final.pending;
          (batch + Sent(rest.deliveries)) + rest.final.pending;
          batch + (Sent(rest.deliveries) + rest.final.pending);
        }
      } else {
        assert r.deliveries == rest.deliveries;
        assert s'.pending == s.pending;
      }
    }
  }

  /** Every batch handed over is non-empty and holds at most
      `DispatchBatchSize` metrics. */
  lemma {:induction false} LoopBatchBounds(s: QueueState, halted: bool, ticks: seq<Tick>)
    ensures var r := Loop(s, halted, ticks);
      forall i :: 0 <= i < |r.deliveries| ==> 0 < |r.deliveries[i].batch| <= DispatchBatchSize
    decreases |ticks|
  {
    if !halted && ticks != [] {
      var (batch, s') := DrainStep(s, Some(DispatchBatchSize));
      LoopRound(s, ticks);
      LoopBatchBounds(s', ticks[0].haltRequested, ticks[1..]);
    }
  }

  /** Position of the first tick at which `halt` is called, or `|ticks|`. */
  function FirstHalt(ticks: seq<Tick>): (k: nat)
    ensures k <= |ticks|
    ensures forall i :: 0 <= i < k ==> !ticks[i].haltRequested
    ensures k < |ticks| ==> ticks[k].haltRequested
  {
    if ticks == [] || ticks[0].haltRequested then 0 else 1 + FirstHalt(ticks[1..])
  }

  /** The loop runs no round when already halted; otherwise it runs every
      round up to and including the one in which `halt` is called, and stops
      there. Failed deliveries do not end it. */
  lemma {:induction false} LoopStopsAtHalt(s: QueueState, halted: bool, ticks: seq<Tick>)
    ensures var r := Loop(s, halted, ticks);
      r.rounds == (if halted then 0 else if FirstHalt(ticks) < |ticks| then FirstHalt(ticks) + 1 else |ticks|) &&
      r.halted == (halted || FirstHalt(ticks) < |ticks|)
    decreases |ticks|
  {
    if !halted && ticks != [] {
      var (batch, s') := DrainStep(s, Some(DispatchBatchSize));
      LoopRound(s, ticks);
      LoopStopsAtHalt(s', ticks[0].haltRequested, ticks[1..]);
    }
  }

  /** Whether deliveries fail changes nothing about what the loop takes from
      the queue, how many rounds it runs, or the batches it hands over. */
  lemma {:induction false} LoopIgnoresFailures(s: QueueState, halted: bool, t1: seq<Tick>, t2: seq<Tick>)
    requires |t1| == |t2|
    requires forall i :: 0 <= i < |t1| ==> t1[i].haltRequested == t2[i].haltRequested
    ensures var r1 := Loop(s, halted, t1); var r2 := Loop(s, halted, t2);
      r1.final == r2.final && r1.rounds == r2.rounds && r1.halted == r2.halted &&
      Batches(r1.deliveries) == Batches(r2.deliveries)
    decreases |t1|
  {
    if !halted && t1 != [] {
      var (batch, s') := DrainStep(s, Some(DispatchBatchSize));
      LoopRound(s, t1);
      LoopRound(s, t2);
      LoopIgnoresFailures(s', t1[0].haltRequested, t1[1..], t2[1..]);
      var rest1 := Loop(s', t1[0].haltRequested, t1[1..]);
      var rest2 := Loop(s', t2[0].haltRequested, t2[1..]);
      if batch != [] {
        SentCons(Delivery(batch, t1[0].deliveryFails), rest1.deliveries);
        SentCons(Delivery(batch, t2[0].deliveryFails), rest2.deliveries);
      } else {
        assert Loop(s, halted, t1).deliveries == rest1.deliveries;
        assert Loop(s, halted, t2).deliveries == rest2.deliveries;
      }
    }
  }

  /** With no `halt` and at least one round per `DispatchBatchSize` pending
      metrics, the loop empties the queue. */
  lemma {:induction false} LoopDrainsQueue(s: QueueState, ticks: seq<Tick>)
    requires forall i :: 0 <= i < |ticks| ==> !ticks[i].haltRequested
    requires |s.pending| <= DispatchBatchSize * |ticks|
    ensures Loop(s, false, ticks).final.pending == []
    decreases |ticks|
  {
    if ticks != [] {
      var (batch, s') := DrainStep(s, Some(DispatchBatchSize));
      LoopRound(s, ticks);
      LoopDrainsQueue(s', ticks[1..]);
    }
  }

  /** A worker thread. `started` records that the thread was started;
      `halted` is the halt event. */
  class DispatchWorker {
    var started: bool
    var halted: bool

    constructor ()
      ensures !started && !halted
    {
      started := false;
      halted := false;
    }

    method Start()
      modifies this
      ensures started && halted == old(halted)
    {
      started := true;
    }

    /** `halt`: sets the halt flag; calling it again changes nothing. */
    method Halt()
      modifies this
      ensures halted && started == old(started)
    {
      halted := true;
    }

    /** `run`, over the schedule `ticks`: returns the deliveries attempted. */
    method Run(queue: MetricsQueue, version: Option<seq<int>>, ticks: seq<Tick>) returns (deliveries: seq<Delivery>)
      modifies this, queue
      ensures var r := RunSpec(old(queue.State()), old(halted), version, ticks);
        deliveries == r.deliveries && queue.State() == r.final && halted == r.halted
      ensures started == old(started)
    {
      deliveries := [];
      if !MetricsSupported(version) {
        return;
      }
      ghost var whole := Loop(queue.State(), halted, ticks);
      var i := 0;
      while !halted && i < |ticks|
        invariant 0 <= i <= |ticks|
        invariant started == old(started)
        invariant var rest := Loop(queue.State(), halted, ticks[i..]);
          whole.deliveries == deliveries + rest.deliveries &&
          whole.final == rest.final && whole.halted == rest.halted
      {
        ghost var before := queue.State();
        ghost var done := deliveries;
        var metrics := queue.GetMetrics(Some(DispatchBatchSize));
        var sent: seq<Delivery> := [];
        if metrics != [] {
          // The delivery's outcome is recorded and otherwise ignored.
          sent := [Delivery(metrics, ticks[i].deliveryFails)];
          deliveries := deliveries + sent;
        }
        if ticks[i].haltRequested {
          Halt();
        }
        LoopRoundAt(before, ticks, i);
        assert done + (sent + Loop(queue.State(), halted, ticks[i + 1..]).deliveries) ==
          deliveries + Loop(queue.State(), halted, ticks[i + 1..]).deliveries;
        i := i + 1;
      }
    }
  }
}
