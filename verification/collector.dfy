/** `processResult`: the task that takes exactly `totalRequest` outcomes from
    the result queue, counts them per status code, sums their durations and
    reports the integer average in milliseconds. */
module Collector {
  import opened Worker

  /** `statusCodeMap.merge(status, 1, Integer::sum)`: a status seen for the
      first time gets count 1 and a known one gets one more. */
  function Merge(counts: map<int, nat>, status: int): (r: map<int, nat>)
    ensures status in r && r[status] == (if status in counts then counts[status] else 0) + 1
  {
    counts[status := if status in counts then counts[status] + 1 else 1]
  }

  /** Merging a status adds no key but that one and changes no other entry. */
  lemma MergeKeepsOthers(counts: map<int, nat>, status: int)
    ensures Merge(counts, status).Keys == counts.Keys + {status}
    ensures forall other :: other in counts && other != status ==>
              Merge(counts, status)[other] == counts[other]
  {
  }

  /** The status map after folding `s` in order: every status that occurs
      is listed, and every listed count is positive. */
  function Tally(s: seq<Outcome>): (r: map<int, nat>)
    ensures forall j :: 0 <= j < |s| ==> s[j].status in r
    ensures forall status :: status in r ==> r[status] >= 1
  {
    if |s| == 0 then map[] else Merge(Tally(s[..|s| - 1]), s[|s| - 1].status)
  }

  /** `totalDuration.plus(result.duration())` over `s`: the summed
      durations, in nanoseconds, which are not negative when no single
      duration is. */
  function SumNanos(s: seq<Outcome>): (total: int)
    ensures (forall j :: 0 <= j < |s| ==> s[j].nanos >= 0) ==> total >= 0
  {
    if |s| == 0 then 0 else SumNanos(s[..|s| - 1]) + s[|s| - 1].nanos
  }

  /** Java's integer division, which truncates toward zero: the remainder
      is smaller than the divisor and has the sign of the dividend. */
  function JavaDiv(a: int, b: int): (q: int)
    requires b > 0
    ensures -b < a - q * b < b
    ensures a >= 0 ==> a - q * b >= 0
    ensures a <= 0 ==> a - q * b <= 0
  {
    if a >= 0 then a / b else -((-a) / b)
  }

  /** `Duration.toMillis`: whole milliseconds, truncated toward zero, so
      that less than one millisecond is dropped, on the side of zero. */
  function ToMillis(nanos: int): (millis: int)
    ensures -1_000_000 < nanos - millis * 1_000_000 < 1_000_000
    ensures nanos >= 0 ==> 0 <= millis && millis * 1_000_000 <= nanos
    ensures nanos <= 0 ==> millis <= 0 && nanos <= millis * 1_000_000
  {
    JavaDiv(nanos, 1_000_000)
  }

  /** `totalRequest > 0 ? totalDuration.toMillis() / totalRequest : 0L`:
      zero when nothing was requested, and otherwise the whole milliseconds
      divided by the request count, truncated toward zero. */
  function AverageMillis(totalNanos: int, totalRequest: int): (avg: int)
    ensures totalRequest <= 0 ==> avg == 0
    ensures totalRequest > 0 ==> -totalRequest < ToMillis(totalNanos) - avg * totalRequest < totalRequest
    ensures totalRequest > 0 && ToMillis(totalNanos) >= 0 ==> ToMillis(totalNanos) - avg * totalRequest >= 0
    ensures totalRequest > 0 && ToMillis(totalNanos) <= 0 ==> ToMillis(totalNanos) - avg * totalRequest <= 0
    ensures totalNanos >= 0 ==> avg >= 0
  {
    if totalRequest > 0 then JavaDiv(ToMillis(totalNanos), totalRequest) else 0
  }

  /** The summary report the collector prints. */
  datatype Summary = Summary(totalRequests: int, statusCounts: map<int, nat>, averageMillis: int)

  /** The report for the outcomes `taken` when `totalRequest` was asked for:
      it echoes the requested total, lists every status taken, and averages
      to 0 when nothing was requested. */
  function Summarize(taken: seq<Outcome>, totalRequest: int): (r: Summary)
    ensures r.totalRequests == totalRequest
    ensures forall j :: 0 <= j < |taken| ==> taken[j].status in r.statusCounts
    ensures totalRequest <= 0 ==> r.averageMillis == 0
  {
    Summary(totalRequest, Tally(taken), AverageMillis(SumNanos(taken), totalRequest))
  }

  /** How many outcomes in `s` carry `status`. */
  function Occurrences(s: seq<Outcome>, status: int): nat {
    if |s| == 0 then 0
    else (if s[0].status == status then 1 else 0) + Occurrences(s[1..], status)
  }

  /** The sum of the counts in a status map. */
  ghost function MapSum(m: map<int, nat>): nat
    decreases |m|
  {
    if |m| == 0 then 0
    else
      HasKey(m);
      var k :| k in m;
      m[k] + MapSum(m - {k})
  }

  /** The collector. It blocks until an outcome is available, so the queue
      must eventually hold the `totalRequest` outcomes it takes; a
      non-positive `totalRequest` takes none and averages to 0. */
  method ProcessResult(queue: seq<Outcome>, totalRequest: int) returns (summary: Summary)
    requires totalRequest <= |queue|
    ensures var n := if totalRequest < 0 then 0 else totalRequest;
            summary == Summarize(queue[..n], totalRequest)
    ensures MapSum(summary.statusCounts) == if totalRequest < 0 then 0 else totalRequest
  {
    var counts, totalNanos, processed := TakeOutcomes(queue, totalRequest);
    summary := Summary(totalRequest, counts, AverageMillis(totalNanos, totalRequest));
    SummaryTotal(queue[..processed], totalRequest);
  }

  /** The collector's loop: take outcomes one by one until `totalRequest`
      have been taken, merging each status into the map and adding each
      duration to the total. */
  method TakeOutcomes(queue: seq<Outcome>, totalRequest: int)
    returns (counts: map<int, nat>, totalNanos: int, processed: nat)
    requires totalRequest <= |queue|
    ensures processed == if totalRequest < 0 then 0 else totalRequest
    ensures counts == Tally(queue[..processed])
    ensures totalNanos == SumNanos(queue[..processed])
  {
    processed := 0;
    totalNanos := 0;
    counts := map[];
    while processed < totalRequest
      invariant processed <= |queue|
      invariant processed <= (if totalRequest < 0 then 0 else totalRequest)
      invariant counts == Tally(queue[..processed])
      invariant totalNanos == SumNanos(queue[..processed])
    {
      var result := queue[processed];
      assert queue[..processed + 1] == queue[..processed] + [result];
      FoldSnoc(queue[..processed], result);
      counts := Merge(counts, result.status);
      totalNanos := totalNanos + result.nanos;
      processed := processed + 1;
    }
  }

  /** The counts of a summary add up to the number of outcomes it was made of. */
  lemma SummaryTotal(taken: seq<Outcome>, totalRequest: int)
    ensures MapSum(Summarize(taken, totalRequest).statusCounts) == |taken|
  {
    TallyTotal(taken);
  }

  /** Folding one more outcome merges its status and adds its duration. */
  lemma FoldSnoc(s: seq<Outcome>, x: Outcome)
    ensures Tally(s + [x]) == Merge(Tally(s), x.status)
    ensures SumNanos(s + [x]) == SumNanos(s) + x.nanos
  {
    assert (s + [x])[..|s|] == s;
  }

  /** Every status the fold sees is a key of the map, with its number of
      occurrences as the count; no other key appears, and no count is 0. */
  lemma {:induction false} TallyCounts(s: seq<Outcome>)
    ensures forall c :: c in Tally(s) <==> Occurrences(s, c) > 0
    ensures forall c :: c in Tally(s) ==> Tally(s)[c] == Occurrences(s, c) >= 1
  {
    if |s| > 0 {
      var init, last := s[..|s| - 1], s[|s| - 1];
      TallyCounts(init);
      OccurrencesSnoc(init, last);
      assert s == init + [last];
    }
  }

  /** Appending an outcome adds one occurrence of its status and no other. */
  lemma {:induction false} OccurrencesSnoc(s: seq<Outcome>, o: Outcome)
    ensures forall c :: Occurrences(s + [o], c) == Occurrences(s, c) + (if o.status == c then 1 else 0)
  {
    if |s| > 0 {
      assert (s + [o])[1..] == s[1..] + [o];
      OccurrencesSnoc(s[1..], o);
    } else {
      assert s + [o] == [o];
    }
  }

  /** Outcomes that all carry status `c` tally to the single entry `{c: |s|}`. */
  lemma {:induction false} TallyUniform(s: seq<Outcome>, c: int)
    requires |s| > 0
    requires forall j :: 0 <= j < |s| ==> s[j].status == c
    ensures Tally(s) == map[c := |s|]
  {
    if |s| > 1 {
      TallyUniform(s[..|s| - 1], c);
    }
  }

  /** The sentinel appears in the map exactly when some request failed. */
  lemma FailureReported(s: seq<Outcome>)
    ensures FailedStatus in Tally(s) <==> exists j :: 0 <= j < |s| && s[j].status == FailedStatus
  {
    TallyCounts(s);
    OccurrencesPositive(s, FailedStatus);
  }

  /** A status occurs in `s` exactly when some element carries it. */
  lemma {:induction false} OccurrencesPositive(s: seq<Outcome>, status: int)
    ensures Occurrences(s, status) > 0 <==> exists j :: 0 <= j < |s| && s[j].status == status
  {
    if |s| > 0 {
      OccurrencesPositive(s[1..], status);
      if Occurrences(s[1..], status) > 0 {
        var j :| 0 <= j < |s[1..]| && s[1..][j].status == status;
        assert s[j + 1].status == status;
      }
      if exists j :: 0 <= j < |s| && s[j].status == status {
        var j :| 0 <= j < |s| && s[j].status == status;
        if j > 0 {
          assert s[1..][j - 1].status == status;
        }
      }
    }
  }

  /** Removing a key takes its count out of the sum, whichever key the
      definition of `MapSum` happened to pick first. */
  lemma {:induction false} MapSumRemove(m: map<int, nat>, k: int)
    requires k in m
    ensures MapSum(m) == m[k] + MapSum(m - {k})
    decreases |m|
  {
    var k' := MapSumPick(m);
    if k' != k {
      RemoveBoth(m, k, k');
      MapSumRemove(m - {k'}, k);
      MapSumRemove(m - {k}, k');
    }
  }

  /** The key the definition of `MapSum` picks first. */
  lemma MapSumPick(m: map<int, nat>) returns (k: int)
    requires |m| != 0
    ensures k in m && MapSum(m) == m[k] + MapSum(m - {k})
  {
    HasKey(m);
    k :| k in m && MapSum(m) == m[k] + MapSum(m - {k});
  }

  /** Removing two distinct keys in either order leaves the same map. */
  lemma RemoveBoth(m: map<int, nat>, k: int, k': int)
    requires k in m && k' in m && k != k'
    ensures k in m - {k'} && (m - {k'})[k] == m[k]
    ensures k' in m - {k} && (m - {k})[k'] == m[k']
    ensures (m - {k'}) - {k} == (m - {k}) - {k'}
  {
    assert ((m - {k'}) - {k}).Keys == ((m - {k}) - {k'}).Keys;
  }

  /** A non-empty map has a key. */
  lemma HasKey(m: map<int, nat>)
    requires |m| != 0
    ensures exists k :: k in m
  {
    assert |m.Items| == |m|;
    var item :| item in m.Items;
    var k: int := item.0;
    assert k in m;
  }

  /** Merging one status adds one to the sum of counts. */
  lemma MapSumMerge(m: map<int, nat>, status: int)
    ensures MapSum(Merge(m, status)) == MapSum(m) + 1
  {
    var m' := Merge(m, status);
    MapSumRemove(m', status);
    MergeRemoved(m, status);
    if status in m {
      MapSumRemove(m, status);
    } else {
      assert m - {status} == m;
    }
  }

  /** Removing the merged status again leaves the map without it. */
  lemma MergeRemoved(m: map<int, nat>, status: int)
    ensures Merge(m, status) - {status} == m - {status}
  {
    var m' := Merge(m, status);
    assert (m' - {status}).Keys == (m - {status}).Keys;
  }

  /** The counts of the status map add up to the number of outcomes taken. */
  lemma {:induction false} TallyTotal(s: seq<Outcome>)
    ensures MapSum(Tally(s)) == |s|
  {
    if |s| > 0 {
      TallyTotal(s[..|s| - 1]);
      MapSumMerge(Tally(s[..|s| - 1]), s[|s| - 1].status);
    }
  }

  /** Merging two statuses gives the same map in either order. */
  lemma MergeCommutes(m: map<int, nat>, a: int, b: int)
    ensures Merge(Merge(m, a), b) == Merge(Merge(m, b), a)
  {
  }

  /** Folding `s` equals folding `s` without its element `j`, then that element. */
  lemma FoldWithout(s: seq<Outcome>, j: int)
    requires 0 <= j < |s|
    ensures Tally(s) == Merge(Tally(s[..j] + s[j + 1..]), s[j].status)
    ensures SumNanos(s) == SumNanos(s[..j] + s[j + 1..]) + s[j].nanos
  {
    TallyWithout(s, j);
    SumWithout(s, j);
  }

  /** The status map part of `FoldWithout`. */
  lemma {:induction false} TallyWithout(s: seq<Outcome>, j: int)
    requires 0 <= j < |s|
    ensures Tally(s) == Merge(Tally(s[..j] + s[j + 1..]), s[j].status)
  {
    var n := |s|;
    var init := s[..n - 1];
    if j == n - 1 {
      assert s[..j] + s[j + 1..] == init;
      assert s == init + [s[n - 1]];
      FoldSnoc(init, s[n - 1]);
    } else {
      var u := init[..j] + init[j + 1..];
      TallyWithout(init, j);
      assert s[..j] + s[j + 1..] == u + [s[n - 1]];
      assert s == init + [s[n - 1]];
      FoldSnoc(u, s[n - 1]);
      FoldSnoc(init, s[n - 1]);
      MergeCommutes(Tally(u), s[j].status, s[n - 1].status);
    }
  }

  /** The duration part of `FoldWithout`. */
  lemma {:induction false} SumWithout(s: seq<Outcome>, j: int)
    requires 0 <= j < |s|
    ensures SumNanos(s) == SumNanos(s[..j] + s[j + 1..]) + s[j].nanos
  {
    var n := |s|;
    var init := s[..n - 1];
    if j == n - 1 {
      assert s[..j] + s[j + 1..] == init;
    } else {
      var u := init[..j] + init[j + 1..];
      SumWithout(init, j);
      assert s[..j] + s[j + 1..] == u + [s[n - 1]];
      assert s == init + [s[n - 1]];
      FoldSnoc(u, s[n - 1]);
      FoldSnoc(init, s[n - 1]);
    }
  }

  /** The status map and the duration sum do not depend on the order in
      which the outcomes arrive. */
  lemma {:induction false} FoldPermutation(s: seq<Outcome>, t: seq<Outcome>)
    requires multiset(s) == multiset(t)
    ensures Tally(s) == Tally(t)
    ensures SumNanos(s) == SumNanos(t)
    decreases |s|
  {
    if |s| > 0 {
      var n := |s|;
      var last := s[n - 1];
      assert last in multiset(t);
      var j :| 0 <= j < |t| && t[j] == last;
      var t' := t[..j] + t[j + 1..];
      WithoutElement(t, j);
      WithoutElement(s, n - 1);
      assert s[..n - 1] + s[n..] == s[..n - 1];
      FoldPermutation(s[..n - 1], t');
      FoldWithout(t, j);
    } else {
      assert |t| == |multiset(t)| == 0;
    }
  }

  /** Dropping element `j` removes one copy of it from the multiset. */
  lemma WithoutElement<T>(s: seq<T>, j: int)
    requires 0 <= j < |s|
    ensures multiset(s[..j] + s[j + 1..]) == multiset(s) - multiset{s[j]}
  {
    assert s == s[..j] + [s[j]] + s[j + 1..];
  }

  /** When no duration is negative, the average is the floor of the total in
      whole milliseconds over the request count, and is not negative. */
  lemma AverageIsFloor(s: seq<Outcome>, totalRequest: int)
    requires forall j :: 0 <= j < |s| ==> s[j].nanos >= 0
    requires totalRequest > 0
    ensures Summarize(s, totalRequest).averageMillis == (SumNanos(s) / 1_000_000) / totalRequest
    ensures Summarize(s, totalRequest).averageMillis >= 0
  {
    var millis := SumNanos(s) / 1_000_000;
    JavaDivNonNegative(SumNanos(s), 1_000_000);
    JavaDivNonNegative(millis, totalRequest);
  }

  /** On a non-negative dividend and a positive divisor, truncation is floor. */
  lemma JavaDivNonNegative(a: int, b: int)
    requires a >= 0 && b > 0
    ensures JavaDiv(a, b) == a / b >= 0
  {
  }

  /** With no outcome requested the average is 0, whatever was taken. */
  lemma NoRequestsAverageZero(s: seq<Outcome>, totalRequest: int)
    requires totalRequest <= 0
    ensures Summarize(s, totalRequest).averageMillis == 0
  {
  }
}
