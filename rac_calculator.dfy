/**
 * `calculate_rac` of `scripts/rac_calculator.py`: the Request Acceptance
 * Capability of a Locust run, from its per-endpoint statistics table once
 * the CSV has been read.  Locust writes an "Aggregated" row last; it is
 * dropped before the columns are summed.
 */
module RacCalculator {

  /** One row of a Locust `*_stats.csv`: its "Request Count" and "Failure Count". */
  datatype StatsRow = StatsRow(requestCount: nat, failureCount: nat)

  /** The two ratios `calculate_rac` returns. */
  datatype Rac = Rac(ok: real, ko: real)

  /** `df.iloc[:-1]`: every row but the last (nothing for an empty table). */
  function WithoutLast(rows: seq<StatsRow>): (r: seq<StatsRow>)
    ensures |r| == if |rows| == 0 then 0 else |rows| - 1
    ensures forall i :: 0 <= i < |r| ==> r[i] == rows[i]
  {
    if |rows| == 0 then [] else rows[..|rows| - 1]
  }

  /** Sum of the "Request Count" column. */
  function RequestSum(rows: seq<StatsRow>): nat
  {
    if |rows| == 0 then 0 else RequestSum(rows[..|rows| - 1]) + rows[|rows| - 1].requestCount
  }

  /** Sum of the "Failure Count" column. */
  function FailureSum(rows: seq<StatsRow>): nat
  {
    if |rows| == 0 then 0 else FailureSum(rows[..|rows| - 1]) + rows[|rows| - 1].failureCount
  }

  /**
   * Accepted and failed requests of the endpoint rows, each as a fraction
   * of the number of requests the run should have issued.
   */
  function CalculateRac(rows: seq<StatsRow>, theoreticalTotal: nat): (r: Rac)
    requires 0 < theoreticalTotal
    ensures 0.0 <= r.ok && 0.0 <= r.ko
    ensures r.ok * theoreticalTotal as real == RequestSum(WithoutLast(rows)) as real
    ensures r.ko * theoreticalTotal as real == FailureSum(WithoutLast(rows)) as real
  {
    var body := WithoutLast(rows);
    Rac(RequestSum(body) as real / theoreticalTotal as real,
        FailureSum(body) as real / theoreticalTotal as real)
  }

  /** The RAC the script reports: accepted plus failed. */
  function ReportedRac(rows: seq<StatsRow>, theoreticalTotal: nat): (r: real)
    requires 0 < theoreticalTotal
    ensures 0.0 <= r
  {
    var r := CalculateRac(rows, theoreticalTotal);
    r.ok + r.ko
  }

  /** A column sum splits over concatenation. */
  lemma {:induction false} SumsAppend(a: seq<StatsRow>, b: seq<StatsRow>)
    ensures RequestSum(a + b) == RequestSum(a) + RequestSum(b)
    ensures FailureSum(a + b) == FailureSum(a) + FailureSum(b)
  {
    if |b| > 0 {
      assert (a + b)[..|a + b| - 1] == a + b[..|b| - 1];
      SumsAppend(a, b[..|b| - 1]);
    } else {
      assert a + b == a;
    }
  }

  /** The last (aggregate) row has no influence on the result. */
  lemma AggregateRowIgnored(rows: seq<StatsRow>, x: StatsRow, y: StatsRow, theoreticalTotal: nat)
    requires 0 < theoreticalTotal
    ensures CalculateRac(rows + [x], theoreticalTotal) == CalculateRac(rows + [y], theoreticalTotal)
  {
    assert WithoutLast(rows + [x]) == rows == WithoutLast(rows + [y]);
  }

  /** A table holding only the aggregate row, or nothing, scores zero. */
  lemma EmptyTableScoresZero(rows: seq<StatsRow>, theoreticalTotal: nat)
    requires 0 < theoreticalTotal && |rows| <= 1
    ensures CalculateRac(rows, theoreticalTotal) == Rac(0.0, 0.0)
  {
  }

  /** One more endpoint row adds its own counts, scaled by the total, to each ratio. */
  lemma AddEndpointRow(rows: seq<StatsRow>, e: StatsRow, aggregate: StatsRow, theoreticalTotal: nat)
    requires 0 < theoreticalTotal
    ensures var before := CalculateRac(rows + [aggregate], theoreticalTotal);
            var after := CalculateRac(rows + [e, aggregate], theoreticalTotal);
            && after.ok == before.ok + e.requestCount as real / theoreticalTotal as real
            && after.ko == before.ko + e.failureCount as real / theoreticalTotal as real
  {
    assert WithoutLast(rows + [aggregate]) == rows;
    var body := rows + [e];
    assert WithoutLast(rows + [e, aggregate]) == body;
    assert body[..|body| - 1] == rows;
    var t := theoreticalTotal as real;
    SplitRatio(RequestSum(rows) as real, e.requestCount as real, t);
    SplitRatio(FailureSum(rows) as real, e.failureCount as real, t);
  }

  /** A ratio of a sum is the sum of the ratios. */
  lemma SplitRatio(a: real, b: real, t: real)
    requires t != 0.0
    ensures (a + b) / t == a / t + b / t
  {
  }

  /** The reported RAC counts every request of the endpoint rows, accepted or failed. */
  lemma {:induction false} ReportedRacCountsAll(rows: seq<StatsRow>, theoreticalTotal: nat)
    requires 0 < theoreticalTotal
    ensures ReportedRac(rows, theoreticalTotal) * theoreticalTotal as real
         == (RequestSum(WithoutLast(rows)) + FailureSum(WithoutLast(rows))) as real
  {
    var r := CalculateRac(rows, theoreticalTotal);
    var t := theoreticalTotal as real;
    assert (r.ok + r.ko) * t == r.ok * t + r.ko * t;
  }
}
