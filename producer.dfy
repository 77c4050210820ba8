/**
 * The producer API, `log_event_metric`, and small end-to-end scenarios that
 * drive the queue, the worker and the dispatcher through their public
 * methods and pin down what a caller observes.
 */
module Producer {
  import opened PythonValues
  import opened EventMetrics
  import opened Queue
  import opened Worker
  import opened Dispatcher

  const MetricEventTypeErrorMessage: string :=
    "The `metric_event` parameter must be an instance of the `EventMetric`class"

  /** `log_event_metric`: anything but an event metric raises `TypeError`
      and leaves the queue alone; an event metric is logged. */
  method LogEventMetric(queue: MetricsQueue, metric: Metric, logOnce: bool) returns (r: Outcome)
    modifies queue
    ensures !metric.EventMetric? ==>
      r == Raised(TypeError(MetricEventTypeErrorMessage)) && queue.State() == old(queue.State())
    ensures metric.EventMetric? ==>
      r == Returned && queue.State() == LogStep(old(queue.State()), metric, logOnce)
  {
    if !metric.EventMetric? {
      return Raised(TypeError(MetricEventTypeErrorMessage));
    }
    queue.Log(metric, logOnce);
    r := Returned;
  }

  /** "App:Login" logged, then logged again with `log_once`: the second is
      dropped. A third, without `log_once`, is appended. */
  method LoginTwiceScenario() returns (afterOnce: nat, afterPlain: nat)
    ensures afterOnce == 1 && afterPlain == 2
  {
    var queue := new MetricsQueue();
    var made := NewEventMetric(StrValue("App"), StrValue("Login"), PlainArg(NoneValue));
    var metric := made.value;
    var _ := LogEventMetric(queue, metric, false);
    var _ := LogEventMetric(queue, metric, true);
    afterOnce := |queue.pending|;
    var _ := LogEventMetric(queue, metric, false);
    afterPlain := |queue.pending|;
  }

  /** A metric that is not an event metric is refused before the queue is
      touched. */
  method NonEventRefusedScenario() returns (r: Outcome, pending: nat, logged: nat)
    ensures r.Raised? && r.error.TypeError? && pending == 0 && logged == 0
  {
    var queue := new MetricsQueue();
    r := LogEventMetric(queue, OtherMetric("custom"), false);
    pending := |queue.pending|;
    logged := |queue.logged|;
  }

  /** Fills a fresh queue with `n` copies of `m`, logged without `log_once`. */
  method FilledQueue(m: Metric, n: nat) returns (queue: MetricsQueue)
    ensures fresh(queue)
    ensures |queue.pending| == n
  {
    queue := new MetricsQueue();
    var i := 0;
    while i < n
      invariant 0 <= i <= n
      invariant |queue.pending| == i
      invariant fresh(queue)
    {
      queue.Log(m, false);
      i := i + 1;
    }
  }

  /** 25 pending metrics drained ten at a time come out as 10, 10 and 5. */
  method DrainTwentyFiveScenario() returns (first: nat, second: nat, third: nat, left: nat)
    ensures first == 10 && second == 10 && third == 5 && left == 0
  {
    var queue := FilledQueue(OtherMetric("m"), 25);
    var batch := queue.GetMetrics(Some(DispatchBatchSize));
    first := |batch|;
    batch := queue.GetMetrics(Some(DispatchBatchSize));
    second := |batch|;
    batch := queue.GetMetrics(Some(DispatchBatchSize));
    third := |batch|;
    left := |queue.pending|;
  }

  /** Three rounds without a halt over 25 pending metrics hand over 10, 10
      and 5 of them and leave the queue empty. */
  lemma ThreeRoundsOfTwentyFive(s: QueueState, ticks: seq<Tick>)
    requires |s.pending| == 25 && |ticks| == 3
    requires forall i :: 0 <= i < 3 ==> !ticks[i].haltRequested
    ensures var r := Loop(s, false, ticks);
      |r.deliveries| == 3 && |r.deliveries[0].batch| == 10 && |r.deliveries[1].batch| == 10 &&
      |r.deliveries[2].batch| == 5 && r.final.pending == [] && !r.halted
  {
    var s1 := DrainStep(s, Some(DispatchBatchSize)).1;
    var s2 := DrainStep(s1, Some(DispatchBatchSize)).1;
    var s3 := DrainStep(s2, Some(DispatchBatchSize)).1;
    LoopRound(s, ticks);
    LoopRound(s1, ticks[1..]);
    assert ticks[1..][1..] == ticks[2..];
    LoopRound(s2, ticks[2..]);
    assert ticks[2..][1..] == [];
    assert |s3.pending| == 0;
  }

  /** A worker whose every delivery fails keeps going: over three rounds it
      hands over 10, 10 and 5 metrics and empties the queue. */
  method FailingDeliveryScenario() returns (sizes: seq<nat>, left: nat, halted: bool)
    ensures sizes == [10, 10, 5] && left == 0 && !halted
  {
    var queue := FilledQueue(OtherMetric("m"), 25);
    var worker := new DispatchWorker();
    worker.Start();
    var failing := Tick(true, false);
    var ticks := [failing, failing, failing];
    ghost var s0 := queue.State();
    var deliveries := worker.Run(queue, Some([7, 4, 0]), ticks);
    GateExplicit([7, 4, 0]);
    ThreeRoundsOfTwentyFive(s0, ticks);
    sizes := seq(|deliveries|, i requires 0 <= i < |deliveries| => |deliveries[i].batch|);
    left := |queue.pending|;
    halted := worker.halted;
  }

  /** Starting twice without a stop leaves the first start's workers in place. */
  method StartTwiceScenario(numWorkers: int, authenticated: bool) returns (first: nat, second: nat, dispatching: bool)
    ensures first == second == (if authenticated then WorkerCount(numWorkers) else 0)
    ensures dispatching == authenticated
  {
    var dispatcher := new MetricsDispatcher(numWorkers);
    dispatcher.Start(authenticated);
    first := |dispatcher.workers|;
    dispatcher.Start(authenticated);
    second := |dispatcher.workers|;
    dispatching := dispatcher.dispatching;
  }

  /** `stop` before any `start` leaves the dispatcher idle and empty. */
  method StopBeforeStartScenario(numWorkers: int) returns (dispatching: bool, count: nat)
    ensures !dispatching && count == 0
  {
    var dispatcher := new MetricsDispatcher(numWorkers);
    dispatcher.Stop();
    dispatching := dispatcher.dispatching;
    count := |dispatcher.workers|;
  }
}
