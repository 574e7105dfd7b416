/** `HttpStress.execute`: validate nothing further (the record did that),
    create the permit queue, fork the collector and one worker per request
    under one scope, and let the collector summarise the result queue. */
module HttpStress {
  import opened Wrappers
  import opened StressConfig
  import opened Worker
  import opened Collector
  import opened Dispatch

  /** How a call ends: the record's constructor threw; the schedule was not
      one the threads can produce; the threads stopped before every request
      finished; or every request finished, and the collector's summary is
      returned. */
  datatype Report =
    | Rejected(error: ConfigError)
    | Inadmissible
    | Unfinished(state: RunState)
    | Completed(summary: Summary)

  /** The outcome each request number produces with this configuration and transport. */
  function OutcomeOf(cfg: Config, net: Transport): int -> Outcome {
    k => RequestOutcome(cfg, net, k)
  }

  /** Construct the input record from `a`, then run the threads through
      `schedule` with `net` answering the sends. Nothing is sent when the
      record is rejected. Once every request has finished, the queue holds
      exactly `totalRequest` outcomes, which the collector takes. */
  function Execute(a: Args, net: Transport, schedule: seq<Event>): (r: Report)
    ensures r.Rejected? <==> Validate(a).Err?
    ensures r.Rejected? ==> r.error == Validate(a).error
    ensures r.Completed? ==> r.summary.totalRequests == Validate(a).value.totalRequest > 0
  {
    match Validate(a)
    case Err(e) => Rejected(e)
    case Ok(cfg) =>
      match Run(cfg.totalRequest, OutcomeOf(cfg, net), Init(cfg.concurrentRequest), schedule)
      case None => Inadmissible
      case Some(s) =>
        if Complete(cfg.totalRequest, s) then Completed(Summarize(s.arrivals, cfg.totalRequest))
        else Unfinished(s)
  }

  /** The state reached by a schedule satisfies the run invariant; in
      particular the permits in use never exceed `concurrentRequest`. */
  lemma ReachableStatesBounded(a: Args, net: Transport, schedule: seq<Event>)
    requires Execute(a, net, schedule).Unfinished?
    ensures var s := Execute(a, net, schedule).state;
            && s.pool.capacity == Validate(a).value.concurrentRequest
            && s.pool.inUse <= s.pool.capacity
            && s.pool.inUse == Holding(s.phases)
            && |s.phases| <= Validate(a).value.totalRequest
  {
    var cfg := Validate(a).value;
    InitInv(cfg.totalRequest, OutcomeOf(cfg, net), cfg.concurrentRequest);
    RunInv(cfg.totalRequest, OutcomeOf(cfg, net), Init(cfg.concurrentRequest), schedule);
  }

  /** A completed run summarises the outcomes of requests 1..N taken in
      request order, whatever order they actually arrived in: the summary
      does not depend on the schedule. */
  lemma {:induction false} SummaryIsOrderIndependent(a: Args, net: Transport, schedule: seq<Event>)
    requires Execute(a, net, schedule).Completed?
    ensures var cfg := Validate(a).value;
            Execute(a, net, schedule).summary
            == Summarize(Ordered(OutcomeOf(cfg, net), cfg.totalRequest), cfg.totalRequest)
  {
    var cfg := Validate(a).value;
    var w := OutcomeOf(cfg, net);
    var s := Run(cfg.totalRequest, w, Init(cfg.concurrentRequest), schedule).value;
    InitInv(cfg.totalRequest, w, cfg.concurrentRequest);
    RunInv(cfg.totalRequest, w, Init(cfg.concurrentRequest), schedule);
    CompletedRun(cfg.totalRequest, w, s);
    FoldPermutation(s.arrivals, Ordered(w, cfg.totalRequest));
  }

  /** Two schedules that both complete print the same summary. */
  lemma SameSummaryForEverySchedule(a: Args, net: Transport, s1: seq<Event>, s2: seq<Event>)
    requires Execute(a, net, s1).Completed? && Execute(a, net, s2).Completed?
    ensures Execute(a, net, s1).summary == Execute(a, net, s2).summary
  {
    SummaryIsOrderIndependent(a, net, s1);
    SummaryIsOrderIndependent(a, net, s2);
  }

  /** Request `k` yields the outcome the worker builds for it. */
  lemma OutcomeOfApply(cfg: Config, net: Transport, k: int)
    ensures OutcomeOf(cfg, net)(k) == RequestOutcome(cfg, net, k)
  {
  }

  /** In a completed run the status counts add up to `totalRequest`, and
      every listed status was seen at least once. */
  lemma CompletedCounts(a: Args, net: Transport, schedule: seq<Event>)
    requires Execute(a, net, schedule).Completed?
    ensures var counts := Execute(a, net, schedule).summary.statusCounts;
            && MapSum(counts) == Validate(a).value.totalRequest
            && (forall c :: c in counts ==> counts[c] >= 1)
  {
    var cfg := Validate(a).value;
    var ordered := Ordered(OutcomeOf(cfg, net), cfg.totalRequest);
    SummaryIsOrderIndependent(a, net, schedule);
    OrderedLength(OutcomeOf(cfg, net), cfg.totalRequest);
    TallyTotal(ordered);
    TallyCounts(ordered);
  }

  /** In a completed run the sentinel status -1 is listed exactly when some
      request failed: a failed send is never lost, and never invented. */
  lemma FailuresVisible(a: Args, net: Transport, schedule: seq<Event>)
    requires Execute(a, net, schedule).Completed?
    ensures var cfg := Validate(a).value;
            FailedStatus in Execute(a, net, schedule).summary.statusCounts
            <==> exists k :: 1 <= k <= cfg.totalRequest && Fails(cfg, net, k)
  {
    var cfg := Validate(a).value;
    var w := OutcomeOf(cfg, net);
    var ordered := Ordered(w, cfg.totalRequest);
    SummaryIsOrderIndependent(a, net, schedule);
    OrderedLength(w, cfg.totalRequest);
    FailureReported(ordered);
    FailedInOrder(cfg, net, cfg.totalRequest);
  }

  /** The `n` outcomes in request order hold the sentinel exactly when one of
      requests 1 to `n` fails. */
  lemma FailedInOrder(cfg: Config, net: Transport, n: nat)
    ensures var ordered := Ordered(OutcomeOf(cfg, net), n);
            (exists j :: 0 <= j < |ordered| && ordered[j].status == FailedStatus)
            <==> exists k :: 1 <= k <= n && Fails(cfg, net, k)
  {
    var w := OutcomeOf(cfg, net);
    var ordered := Ordered(w, n);
    OrderedLength(w, n);
    if exists j :: 0 <= j < |ordered| && ordered[j].status == FailedStatus {
      var j :| 0 <= j < |ordered| && ordered[j].status == FailedStatus;
      OutcomeOfApply(cfg, net, j + 1);
    }
    if exists k :: 1 <= k <= n && Fails(cfg, net, k) {
      var k :| 1 <= k <= n && Fails(cfg, net, k);
      OutcomeOfApply(cfg, net, k);
      assert ordered[k - 1].status == FailedStatus;
    }
  }

  /** When every request receives status `c`, the counts are `{c: totalRequest}`. */
  lemma UniformStatus(a: Args, net: Transport, schedule: seq<Event>, c: int)
    requires Execute(a, net, schedule).Completed?
    requires forall k :: 1 <= k <= Validate(a).value.totalRequest
                         ==> RequestOutcome(Validate(a).value, net, k).status == c
    ensures Execute(a, net, schedule).summary.statusCounts == map[c := Validate(a).value.totalRequest]
  {
    var cfg := Validate(a).value;
    var w := OutcomeOf(cfg, net);
    var ordered := Ordered(w, cfg.totalRequest);
    SummaryIsOrderIndependent(a, net, schedule);
    OrderedLength(w, cfg.totalRequest);
    forall j | 0 <= j < |ordered|
      ensures ordered[j].status == c
    {
      OutcomeOfApply(cfg, net, j + 1);
    }
    TallyUniform(ordered, c);
  }

  /** When no request's duration is negative (the clock did not run
      backwards during a send), the reported average is the total response
      time in whole milliseconds divided by `totalRequest` and rounded down,
      and it is never negative. */
  lemma CompletedAverage(a: Args, net: Transport, schedule: seq<Event>)
    requires Execute(a, net, schedule).Completed?
    requires forall k :: 1 <= k <= Validate(a).value.totalRequest
                         ==> RequestOutcome(Validate(a).value, net, k).nanos >= 0
    ensures Execute(a, net, schedule).summary.averageMillis
            == (SumNanos(Ordered(OutcomeOf(Validate(a).value, net), Validate(a).value.totalRequest))
                / 1_000_000) / Validate(a).value.totalRequest
    ensures Execute(a, net, schedule).summary.averageMillis >= 0
  {
    var cfg := Validate(a).value;
    var w := OutcomeOf(cfg, net);
    var ordered := Ordered(w, cfg.totalRequest);
    SummaryIsOrderIndependent(a, net, schedule);
    OrderedLength(w, cfg.totalRequest);
    forall j | 0 <= j < |ordered|
      ensures ordered[j].nanos >= 0
    {
      OutcomeOfApply(cfg, net, j + 1);
    }
    AverageIsFloor(ordered, cfg.totalRequest);
  }

  /** Every accepted configuration can run to completion: the schedule that
      runs one request at a time completes. */
  lemma AcceptedConfigCanComplete(a: Args, net: Transport)
    requires Validate(a).Ok?
    ensures Execute(a, net, Serial(Validate(a).value.totalRequest)).Completed?
  {
    var cfg := Validate(a).value;
    SerialCompletes(cfg.totalRequest, OutcomeOf(cfg, net), cfg.concurrentRequest);
  }
}
