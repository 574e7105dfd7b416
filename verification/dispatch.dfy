/** The dispatch loop of `execute` and the forked workers, as a transition
    system. The loop forks request `k` (for `k` = 1, 2, ...) after acquiring a
    permit; worker `k` puts its one outcome on the result queue, paces, and
    returns its permit. Every interleaving of these steps that the threads
    can produce is a sequence of `Event`s that `Run` accepts. */
module Dispatch {
  import opened Wrappers
  import opened Permits
  import opened Worker

  /** Where a forked worker is: holding a permit before its outcome is
      queued, holding it while pacing after the outcome is queued, or done
      and its permit returned. */
  datatype Phase = InFlight | Pacing | Finished

  /** One step of one thread: the loop forks the next request, worker `k`
      queues its outcome, or worker `k` returns its permit. */
  datatype Event = Fork | Emit(request: int) | Return(request: int)

  /** The shared state: the permit pool, the phase of each forked request
      (`phases[k - 1]` for request `k`), the result queue in arrival order,
      and which request put each queued outcome. */
  datatype RunState = RunState(pool: Pool, phases: seq<Phase>, arrivals: seq<Outcome>, senders: seq<int>)

  /** The identity on request numbers. */
  function Id(k: int): int { k }

  /** `f(1), ..., f(n)`: per-request values in request order. */
  function Ordered<T>(f: int -> T, n: nat): seq<T> {
    if n == 0 then [] else Ordered(f, n - 1) + [f(n)]
  }

  /** `n` finished requests. */
  function FinishedPhases(n: nat): seq<Phase> {
    if n == 0 then [] else FinishedPhases(n - 1) + [Finished]
  }

  /** How many forked requests still hold a permit. */
  function Holding(phases: seq<Phase>): nat {
    if |phases| == 0 then 0
    else Holding(phases[..|phases| - 1]) + (if phases[|phases| - 1] != Finished then 1 else 0)
  }

  /** How many requests `k` that have queued their outcome have `f(k) == v`. */
  function Emitted<T(==)>(phases: seq<Phase>, f: int -> T, v: T): nat {
    if |phases| == 0 then 0
    else Emitted(phases[..|phases| - 1], f, v) + Hit(phases[|phases| - 1], f(|phases|), v)
  }

  /** 1 when a request in `phase` has queued `u` and `u` is `v`, else 0. */
  function Hit<T(==)>(phase: Phase, u: T, v: T): nat {
    if phase != InFlight && u == v then 1 else 0
  }

  /** Before the loop: no permit held, nothing forked, the queue empty. */
  function Init(capacity: int): RunState
    requires capacity >= 1
  {
    RunState(NewPool(capacity).value, [], [], [])
  }

  /** One event, when the thread that performs it can perform it now. `w(k)`
      is the outcome worker `k` produces. The loop forks while fewer than
      `total` requests have been forked and a permit is free; a worker queues
      its outcome once, and only afterwards returns its permit. */
  function Step(total: int, w: int -> Outcome, s: RunState, e: Event): (r: Option<RunState>)
    ensures e == Fork ==> (r.Some? <==> |s.phases| < total && s.pool.inUse < s.pool.capacity)
    ensures e.Emit? ==> (r.Some? <==> 1 <= e.request <= |s.phases| && s.phases[e.request - 1] == InFlight)
    ensures e.Return? ==> (r.Some? <==> 1 <= e.request <= |s.phases| && s.phases[e.request - 1] == Pacing && s.pool.inUse > 0)
    ensures r.Some? ==> s.arrivals <= r.value.arrivals && |r.value.arrivals| <= |s.arrivals| + 1
    ensures r.Some? ==> r.value.pool.capacity == s.pool.capacity
    ensures r.Some? ==> |s.phases| <= |r.value.phases| <= |s.phases| + 1
  {
    match e
    case Fork =>
      if |s.phases| < total then
        match Acquire(s.pool)
        case None => None
        case Some(p) => Some(RunState(p, s.phases + [InFlight], s.arrivals, s.senders))
      else None
    case Emit(k) =>
      if 1 <= k <= |s.phases| && s.phases[k - 1] == InFlight then
        Some(s.(phases := s.phases[k - 1 := Pacing], arrivals := s.arrivals + [w(k)],
                senders := s.senders + [k]))
      else None
    case Return(k) =>
      if 1 <= k <= |s.phases| && s.phases[k - 1] == Pacing then
        match Release(s.pool)
        case None => None
        case Some(p) => Some(s.(pool := p, phases := s.phases[k - 1 := Finished]))
      else None
  }

  /** The state after `events`, or `None` if some event could not happen.
      Along the way the capacity stays fixed, no forked request is forgotten,
      and the queue only grows, by at most one outcome per event. */
  function Run(total: int, w: int -> Outcome, s: RunState, events: seq<Event>): (r: Option<RunState>)
    ensures r.Some? ==> r.value.pool.capacity == s.pool.capacity
    ensures r.Some? ==> |s.phases| <= |r.value.phases| <= |s.phases| + |events|
    ensures r.Some? ==> s.arrivals <= r.value.arrivals && |r.value.arrivals| <= |s.arrivals| + |events|
    decreases |events|
  {
    if |events| == 0 then Some(s)
    else
      match Step(total, w, s, events[0])
      case None => None
      case Some(s') => Run(total, w, s', events[1..])
  }

  /** Every request has been forked and has returned its permit. */
  predicate Complete(total: int, s: RunState) {
    |s.phases| == total && forall i :: 0 <= i < |s.phases| ==> s.phases[i] == Finished
  }

  /** What holds between any two steps: the pool is valid and counts exactly
      the forked requests that have not returned their permit (so no more
      than `capacity` are ever in flight), at most `total` are forked, and the
      queue holds one outcome `w(k)`, put by request `k`, for every request
      `k` past its send, and nothing else. */
  ghost predicate Inv(total: int, w: int -> Outcome, s: RunState) {
    && Valid(s.pool)
    && |s.phases| <= total
    && s.pool.inUse == Holding(s.phases)
    && (forall v :: multiset(s.senders)[v] == Emitted(s.phases, Id, v))
    && (forall v :: multiset(s.arrivals)[v] == Emitted(s.phases, w, v))
  }

  /** Changing the phase of request `k` changes `Holding` only by what that
      one request contributes. */
  lemma {:induction false} HoldingUpdate(phases: seq<Phase>, k: int, x: Phase)
    requires 1 <= k <= |phases|
    ensures Holding(phases[k - 1 := x]) + (if phases[k - 1] != Finished then 1 else 0)
            == Holding(phases) + (if x != Finished then 1 else 0)
  {
    var n := |phases|;
    var updated := phases[k - 1 := x];
    if k == n {
      assert updated[..n - 1] == phases[..n - 1];
    } else {
      assert updated[..n - 1] == phases[..n - 1][k - 1 := x];
      assert updated[n - 1] == phases[n - 1];
      HoldingUpdate(phases[..n - 1], k, x);
    }
  }

  /** Changing the phase of request `k` changes `Emitted` only by what that
      one request contributes. */
  lemma {:induction false} EmittedUpdate<T>(phases: seq<Phase>, k: int, x: Phase, f: int -> T, v: T)
    requires 1 <= k <= |phases|
    ensures Emitted(phases[k - 1 := x], f, v) + Hit(phases[k - 1], f(k), v)
            == Emitted(phases, f, v) + Hit(x, f(k), v)
  {
    var n := |phases|;
    var updated := phases[k - 1 := x];
    if k == n {
      assert updated[..n - 1] == phases[..n - 1];
    } else {
      assert updated[..n - 1] == phases[..n - 1][k - 1 := x];
      assert updated[n - 1] == phases[n - 1];
      EmittedUpdate(phases[..n - 1], k, x, f, v);
    }
  }

  /** Forking appends a request that holds a permit and has queued nothing. */
  lemma Appended<T>(phases: seq<Phase>, f: int -> T, v: T)
    ensures Holding(phases + [InFlight]) == Holding(phases) + 1
    ensures Emitted(phases + [InFlight], f, v) == Emitted(phases, f, v)
  {
    assert (phases + [InFlight])[..|phases|] == phases;
  }

  /** When every request has finished, none holds a permit and every
      request has queued its outcome exactly once. */
  lemma {:induction false} AllFinished<T>(phases: seq<Phase>, f: int -> T, v: T)
    requires forall i :: 0 <= i < |phases| ==> phases[i] == Finished
    ensures Holding(phases) == 0
    ensures Emitted(phases, f, v) == multiset(Ordered(f, |phases|))[v]
  {
    if |phases| > 0 {
      AllFinished(phases[..|phases| - 1], f, v);
    }
  }

  /** The state before the loop satisfies the invariant. */
  lemma InitInv(total: int, w: int -> Outcome, capacity: int)
    requires capacity >= 1 && total >= 0
    ensures Inv(total, w, Init(capacity))
    ensures Init(capacity).pool.capacity == capacity
  {
  }

  /** Forking keeps the invariant. */
  lemma ForkInv(total: int, w: int -> Outcome, s: RunState)
    requires Inv(total, w, s) && Step(total, w, s, Fork).Some?
    ensures Inv(total, w, Step(total, w, s, Fork).value)
  {
    var s' := Step(total, w, s, Fork).value;
    assert s'.phases == s.phases + [InFlight];
    assert s'.senders == s.senders && s'.arrivals == s.arrivals;
    Appended(s.phases, Id, 0);
    forall v: int
      ensures multiset(s'.senders)[v] == Emitted(s'.phases, Id, v)
    {
      Appended(s.phases, Id, v);
    }
    forall v: Outcome
      ensures multiset(s'.arrivals)[v] == Emitted(s'.phases, w, v)
    {
      Appended(s.phases, w, v);
    }
  }

  /** Queuing an outcome keeps the invariant. */
  lemma EmitInv(total: int, w: int -> Outcome, s: RunState, k: int)
    requires Inv(total, w, s) && Step(total, w, s, Emit(k)).Some?
    ensures Inv(total, w, Step(total, w, s, Emit(k)).value)
  {
    var s' := Step(total, w, s, Emit(k)).value;
    assert 1 <= k <= |s.phases| && s.phases[k - 1] == InFlight;
    assert s' == RunState(s.pool, s.phases[k - 1 := Pacing], s.arrivals + [w(k)], s.senders + [k]);
    HoldingUpdate(s.phases, k, Pacing);
    forall v: int
      ensures multiset(s'.senders)[v] == Emitted(s'.phases, Id, v)
    {
      EmittedUpdate(s.phases, k, Pacing, Id, v);
    }
    forall v: Outcome
      ensures multiset(s'.arrivals)[v] == Emitted(s'.phases, w, v)
    {
      EmittedUpdate(s.phases, k, Pacing, w, v);
    }
  }

  /** Returning a permit keeps the invariant. */
  lemma ReturnInv(total: int, w: int -> Outcome, s: RunState, k: int)
    requires Inv(total, w, s) && Step(total, w, s, Return(k)).Some?
    ensures Inv(total, w, Step(total, w, s, Return(k)).value)
  {
    var s' := Step(total, w, s, Return(k)).value;
    assert 1 <= k <= |s.phases| && s.phases[k - 1] == Pacing;
    assert s'.phases == s.phases[k - 1 := Finished];
    assert s'.arrivals == s.arrivals && s'.senders == s.senders;
    assert s'.pool.inUse + 1 == s.pool.inUse;
    HoldingUpdate(s.phases, k, Finished);
    forall v: int
      ensures multiset(s'.senders)[v] == Emitted(s'.phases, Id, v)
    {
      EmittedUpdate(s.phases, k, Finished, Id, v);
    }
    forall v: Outcome
      ensures multiset(s'.arrivals)[v] == Emitted(s'.phases, w, v)
    {
      EmittedUpdate(s.phases, k, Finished, w, v);
    }
  }

  /** Every step keeps the invariant, and no step changes the capacity. */
  lemma StepInv(total: int, w: int -> Outcome, s: RunState, e: Event)
    requires Inv(total, w, s) && Step(total, w, s, e).Some?
    ensures Inv(total, w, Step(total, w, s, e).value)
    ensures Step(total, w, s, e).value.pool.capacity == s.pool.capacity
  {
    match e
    case Fork => ForkInv(total, w, s);
    case Emit(k) => EmitInv(total, w, s, k);
    case Return(k) => ReturnInv(total, w, s, k);
  }

  /** Every reachable state satisfies the invariant: in particular the
      permits in use never exceed `capacity` and always equal the number of
      forked requests that have not returned theirs. */
  lemma {:induction false} RunInv(total: int, w: int -> Outcome, s: RunState, events: seq<Event>)
    requires Inv(total, w, s) && Run(total, w, s, events).Some?
    ensures Inv(total, w, Run(total, w, s, events).value)
    ensures Run(total, w, s, events).value.pool.capacity == s.pool.capacity
    decreases |events|
  {
    if |events| > 0 {
      StepInv(total, w, s, events[0]);
      RunInv(total, w, Step(total, w, s, events[0]).value, events[1..]);
    }
  }

  /** How often each request number occurs in `1, ..., n`. */
  lemma {:induction false} OrderedIdCount(n: nat, k: int)
    ensures multiset(Ordered(Id, n))[k] == if 1 <= k <= n then 1 else 0
  {
    if n > 0 {
      OrderedIdCount(n - 1, k);
    }
  }

  /** At the end of a completed run every permit is back, the queue holds
      exactly `total` outcomes, each request `1..total` put exactly one of
      them and no other request put any, and the queued outcomes are those
      of the requests, in some order. */
  lemma CompletedRun(total: int, w: int -> Outcome, s: RunState)
    requires Inv(total, w, s) && Complete(total, s)
    ensures s.pool.inUse == 0
    ensures |s.arrivals| == total
    ensures forall k :: multiset(s.senders)[k] == if 1 <= k <= total then 1 else 0
    ensures multiset(s.arrivals) == multiset(Ordered(w, total))
  {
    AllFinished(s.phases, Id, 0);
    forall k
      ensures multiset(s.senders)[k] == if 1 <= k <= total then 1 else 0
    {
      AllFinished(s.phases, Id, k);
      OrderedIdCount(total, k);
    }
    forall v
      ensures multiset(s.arrivals)[v] == multiset(Ordered(w, total))[v]
    {
      AllFinished(s.phases, w, v);
    }
    assert multiset(s.arrivals) == multiset(Ordered(w, total));
    OrderedLength(w, total);
    assert |s.arrivals| == |multiset(s.arrivals)| == |Ordered(w, total)|;
  }

  /** `Ordered(f, n)` has `n` elements, the `j`-th being `f(j + 1)`. */
  lemma {:induction false} OrderedLength<T>(f: int -> T, n: nat)
    ensures |Ordered(f, n)| == n
    ensures forall j :: 0 <= j < n ==> Ordered(f, n)[j] == f(j + 1)
  {
    if n > 0 {
      OrderedLength(f, n - 1);
    }
  }

  /** The schedule that runs one request at a time: fork `k`, queue its
      outcome, return its permit, for `k` = 1, ..., n. */
  function Serial(n: nat): seq<Event> {
    if n == 0 then [] else Serial(n - 1) + [Fork, Emit(n), Return(n)]
  }

  /** Running `a` then `b` is running `a + b`. */
  lemma {:induction false} RunAppend(total: int, w: int -> Outcome, s: RunState, a: seq<Event>, b: seq<Event>)
    ensures Run(total, w, s, a + b)
            == match Run(total, w, s, a) case None => None case Some(s') => Run(total, w, s', b)
    decreases |a|
  {
    if |a| == 0 {
      assert a + b == b;
    } else {
      assert (a + b)[0] == a[0] && (a + b)[1..] == a[1..] + b;
      match Step(total, w, s, a[0])
      case None =>
      case Some(s') => RunAppend(total, w, s', a[1..], b);
    }
  }

  /** The one-at-a-time schedule is always possible: after `n <= total`
      rounds the first `n` requests are finished, the pool is back to zero,
      and the queue holds their outcomes in request order. */
  lemma {:induction false} SerialRun(total: int, w: int -> Outcome, capacity: int, n: nat)
    requires capacity >= 1 && n <= total
    ensures Run(total, w, Init(capacity), Serial(n))
            == Some(RunState(Pool(capacity, 0), FinishedPhases(n), Ordered(w, n), Ordered(Id, n)))
  {
    if n > 0 {
      SerialRun(total, w, capacity, n - 1);
      RunAppend(total, w, Init(capacity), Serial(n - 1), [Fork, Emit(n), Return(n)]);
      SerialRound(total, w, capacity, n);
    }
  }

  /** Round `n` of the one-at-a-time schedule: fork request `n`, queue its
      outcome and return its permit, from the state the first `n - 1`
      rounds reach. */
  lemma SerialRound(total: int, w: int -> Outcome, capacity: int, n: nat)
    requires capacity >= 1 && 1 <= n <= total
    ensures Run(total, w, RunState(Pool(capacity, 0), FinishedPhases(n - 1), Ordered(w, n - 1), Ordered(Id, n - 1)),
                [Fork, Emit(n), Return(n)])
            == Some(RunState(Pool(capacity, 0), FinishedPhases(n), Ordered(w, n), Ordered(Id, n)))
  {
    var s := RunState(Pool(capacity, 0), FinishedPhases(n - 1), Ordered(w, n - 1), Ordered(Id, n - 1));
    FinishedPhasesLength(n - 1);
    var s1 := RunState(Pool(capacity, 1), FinishedPhases(n - 1) + [InFlight], Ordered(w, n - 1), Ordered(Id, n - 1));
    assert Step(total, w, s, Fork) == Some(s1);
    var s2 := RunState(Pool(capacity, 1), FinishedPhases(n - 1) + [Pacing], Ordered(w, n), Ordered(Id, n));
    assert s1.phases[n - 1 := Pacing] == s2.phases;
    assert Step(total, w, s1, Emit(n)) == Some(s2);
    var s3 := RunState(Pool(capacity, 0), FinishedPhases(n), Ordered(w, n), Ordered(Id, n));
    assert s2.phases[n - 1 := Finished] == s3.phases;
    assert Step(total, w, s2, Return(n)) == Some(s3);
    var tail := [Fork, Emit(n), Return(n)];
    assert tail[1..] == [Emit(n), Return(n)] && tail[1..][1..] == [Return(n)];
    assert Run(total, w, s2, [Return(n)]) == Some(s3);
    assert Run(total, w, s1, tail[1..]) == Some(s3);
  }

  /** `FinishedPhases(n)` is `n` finished phases. */
  lemma {:induction false} FinishedPhasesLength(n: nat)
    ensures |FinishedPhases(n)| == n
    ensures forall i :: 0 <= i < n ==> FinishedPhases(n)[i] == Finished
  {
    if n > 0 {
      FinishedPhasesLength(n - 1);
    }
  }

  /** The one-at-a-time schedule of `total` rounds completes the run. */
  lemma SerialCompletes(total: nat, w: int -> Outcome, capacity: int)
    requires capacity >= 1
    ensures Run(total, w, Init(capacity), Serial(total)).Some?
    ensures Complete(total, Run(total, w, Init(capacity), Serial(total)).value)
  {
    SerialRun(total, w, capacity, total);
    FinishedPhasesLength(total);
  }
}
