/**
 * `Monitoring.predict_users`: a short-horizon linear extrapolation of the
 * active-user gauge over its last five recorded values.
 */
module Prediction {
  import opened Wrappers
  import opened PyNum

  /** One `(time, users)` pair of `valid_data`. */
  datatype Observation = Observation(t: real, users: real)

  /** The pairs of equally long lists whose user value is not `None`, in order. */
  function Pair(time: seq<real>, activeUsers: seq<Option<real>>): (r: seq<Observation>)
    requires |time| == |activeUsers|
    ensures |r| <= |time|
    decreases |time|
  {
    if |time| == 0 then []
    else
      var n := |time| - 1;
      Pair(time[..n], activeUsers[..n])
        + match activeUsers[n] case None => [] case Some(u) => [Observation(time[n], u)]
  }

  /**
   * `valid_data`: `zip` stops at the shorter list, then samples whose
   * active-user value is `None` are dropped.
   */
  function ValidPoints(time: seq<real>, activeUsers: seq<Option<real>>): (r: seq<Observation>)
    ensures |r| <= |time| && |r| <= |activeUsers|
  {
    var n := if |time| <= |activeUsers| then |time| else |activeUsers|;
    Pair(time[..n], activeUsers[..n])
  }

  /** The slope from `a` to `b`, or nothing when time does not advance. */
  function Slope(a: Observation, b: Observation): seq<real>
  {
    var dt := b.t - a.t;
    if dt > 0.0 then [(b.users - a.users) / dt] else []
  }

  /** The slope between each consecutive pair of points whose time advances. */
  function Gradients(points: seq<Observation>): (g: seq<real>)
    ensures |g| <= if |points| == 0 then 0 else |points| - 1
  {
    if |points| < 2 then []
    else
      var n := |points| - 1;
      Gradients(points[..n]) + Slope(points[n - 1], points[n])
  }

  /** Python's `sum`, left to right. */
  function Sum(xs: seq<real>): real
  {
    if |xs| == 0 then 0.0 else Sum(xs[..|xs| - 1]) + xs[|xs| - 1]
  }

  /**
   * The prediction: the last valid value (or 0) with fewer than five valid
   * samples; otherwise the last value moved along the average slope of the
   * last five valid samples for `horizon` times the last time step, and
   * clamped at 0 (unclamped when no time step of the five is positive).
   */
  function Predict(time: seq<real>, activeUsers: seq<Option<real>>, horizon: int): real
  {
    PredictFrom(ValidPoints(time, activeUsers), horizon)
  }

  /** The prediction from the valid points alone. */
  function PredictFrom(valid: seq<Observation>, horizon: int): real
  {
    if |valid| < 5 then
      if |valid| == 0 then 0.0 else valid[|valid| - 1].users
    else
      PredictRecent(valid[|valid| - 5..], horizon)
  }

  /** The extrapolation from the last five valid points. */
  function PredictRecent(recent: seq<Observation>, horizon: int): real
    requires |recent| == 5
  {
    var gradients := Gradients(recent);
    if |gradients| == 0 then recent[4].users
    else
      var avgGradient := Sum(gradients) / |gradients| as real;
      var lastDt := recent[4].t - recent[3].t;
      MaxReal(0.0, recent[4].users + avgGradient * (lastDt * horizon as real))
  }

  // ------------------------------------------------------------------ lemmas

  /** Pairing splits over concatenation. */
  lemma {:induction false} PairAppend(t1: seq<real>, u1: seq<Option<real>>, t2: seq<real>, u2: seq<Option<real>>)
    requires |t1| == |u1| && |t2| == |u2|
    ensures Pair(t1 + t2, u1 + u2) == Pair(t1, u1) + Pair(t2, u2)
    decreases |t2|
  {
    if |t2| == 0 {
      assert t1 + t2 == t1 && u1 + u2 == u1;
    } else {
      var n := |t2| - 1;
      var t2', u2' := t2[..n], u2[..n];
      assert t2 == t2' + [t2[n]] && u2 == u2' + [u2[n]];
      assert t1 + t2 == (t1 + t2') + [t2[n]] && u1 + u2 == (u1 + u2') + [u2[n]];
      PairSnoc(t1 + t2', u1 + u2', t2[n], u2[n]);
      PairAppend(t1, u1, t2', u2');
      PairSnoc(t2', u2', t2[n], u2[n]);
    }
  }

  /** Every valid point carries a user value that was recorded, so non-negative gauges give non-negative points. */
  lemma {:induction false} PairNonNegative(time: seq<real>, activeUsers: seq<Option<real>>)
    requires |time| == |activeUsers|
    requires forall i :: 0 <= i < |activeUsers| && activeUsers[i].Some? ==> 0.0 <= activeUsers[i].value
    ensures forall k :: 0 <= k < |Pair(time, activeUsers)| ==> 0.0 <= Pair(time, activeUsers)[k].users
    decreases |time|
  {
    if |time| > 0 {
      var n := |time| - 1;
      PairNonNegative(time[..n], activeUsers[..n]);
    }
  }

  /** With fewer than five valid samples, the last valid value, or 0 when there is none. */
  lemma PredictFewSamples(time: seq<real>, activeUsers: seq<Option<real>>, horizon: int)
    requires |ValidPoints(time, activeUsers)| < 5
    ensures var valid := ValidPoints(time, activeUsers);
      Predict(time, activeUsers, horizon) == if |valid| == 0 then 0.0 else valid[|valid| - 1].users
  {
  }

  /** Whenever a slope could be computed, the prediction is clamped at 0. */
  lemma PredictClamped(time: seq<real>, activeUsers: seq<Option<real>>, horizon: int)
    requires |ValidPoints(time, activeUsers)| >= 5
    requires var valid := ValidPoints(time, activeUsers); Gradients(valid[|valid| - 5..]) != []
    ensures 0.0 <= Predict(time, activeUsers, horizon)
  {
  }

  /** When no time step of the last five is positive, the last value is returned as it is. */
  lemma PredictWithoutSlope(time: seq<real>, activeUsers: seq<Option<real>>, horizon: int)
    requires |ValidPoints(time, activeUsers)| >= 5
    requires var valid := ValidPoints(time, activeUsers); Gradients(valid[|valid| - 5..]) == []
    ensures var valid := ValidPoints(time, activeUsers);
      Predict(time, activeUsers, horizon) == valid[|valid| - 1].users
  {
  }

  /** A gauge that never reports a negative value never gets a negative prediction. */
  lemma PredictNonNegative(time: seq<real>, activeUsers: seq<Option<real>>, horizon: int)
    requires forall i :: 0 <= i < |activeUsers| && activeUsers[i].Some? ==> 0.0 <= activeUsers[i].value
    ensures 0.0 <= Predict(time, activeUsers, horizon)
  {
    var n := if |time| <= |activeUsers| then |time| else |activeUsers|;
    PairNonNegative(time[..n], activeUsers[..n]);
  }

  /** Samples older than the last five valid ones play no part. */
  lemma OlderSamplesIgnored(t0: seq<real>, u0: seq<Option<real>>, time: seq<real>, activeUsers: seq<Option<real>>, horizon: int)
    requires |t0| == |u0| && |time| == |activeUsers|
    requires |ValidPoints(time, activeUsers)| >= 5
    ensures Predict(t0 + time, u0 + activeUsers, horizon) == Predict(time, activeUsers, horizon)
  {
    ValidPointsOfEqualLengths(t0 + time, u0 + activeUsers);
    ValidPointsOfEqualLengths(time, activeUsers);
    PairAppend(t0, u0, time, activeUsers);
    var a, b := Pair(t0, u0), Pair(time, activeUsers);
    assert Predict(t0 + time, u0 + activeUsers, horizon) == PredictFrom(a + b, horizon);
    assert Predict(time, activeUsers, horizon) == PredictFrom(b, horizon);
    assert (a + b)[|a + b| - 5..] == b[|b| - 5..];
    RecentPointsOnly(a + b, horizon);
    RecentPointsOnly(b, horizon);
  }

  /** From five valid points on, only the last five matter. */
  lemma RecentPointsOnly(valid: seq<Observation>, horizon: int)
    requires |valid| >= 5
    ensures PredictFrom(valid, horizon) == PredictFrom(valid[|valid| - 5..], horizon)
  {
    var recent := valid[|valid| - 5..];
    assert recent[|recent| - 5..] == recent;
  }

  /** Pairing one more sample. */
  lemma PairSnoc(time: seq<real>, activeUsers: seq<Option<real>>, t: real, u: Option<real>)
    requires |time| == |activeUsers|
    ensures Pair(time + [t], activeUsers + [u]) ==
      Pair(time, activeUsers) + match u case None => [] case Some(v) => [Observation(t, v)]
  {
    assert (time + [t])[..|time|] == time;
    assert (activeUsers + [u])[..|activeUsers|] == activeUsers;
  }

  /** The valid points of equally long lists are their pairing. */
  lemma ValidPointsOfEqualLengths(time: seq<real>, activeUsers: seq<Option<real>>)
    requires |time| == |activeUsers|
    ensures ValidPoints(time, activeUsers) == Pair(time, activeUsers)
  {
    assert time[..|time|] == time && activeUsers[..|activeUsers|] == activeUsers;
  }

  /** A sample whose active-user value is `None` is skipped as if it had never been recorded. */
  lemma NoneSampleSkipped(t1: seq<real>, u1: seq<Option<real>>, t: real, t2: seq<real>, u2: seq<Option<real>>, horizon: int)
    requires |t1| == |u1| && |t2| == |u2|
    ensures Predict(t1 + [t] + t2, u1 + [None] + u2, horizon) == Predict(t1 + t2, u1 + u2, horizon)
  {
    assert ValidPoints(t1 + [t] + t2, u1 + [None] + u2) == ValidPoints(t1 + t2, u1 + u2) by {
      ValidPointsOfEqualLengths(t1 + [t] + t2, u1 + [None] + u2);
      ValidPointsOfEqualLengths(t1 + t2, u1 + u2);
      PairAppend(t1 + [t], u1 + [None], t2, u2);
      PairSnoc(t1, u1, t, None);
      PairAppend(t1, u1, t2, u2);
    }
  }

  /** Slopes of one more point. */
  lemma GradientsSnoc(points: seq<Observation>, p: Observation)
    requires |points| >= 1
    ensures Gradients(points + [p]) == Gradients(points) + Slope(points[|points| - 1], p)
  {
    var q := points + [p];
    var n := |points|;
    assert q[..n] == points;
    assert q[n] == p && q[n - 1] == points[n - 1];
  }

  /**
   * Samples 10, 12, 14, 16, 20 at times 0, 1, 2, 3, 5, one step ahead: every
   * slope is 2 and the last step is 2, so the prediction is 20 + 2 * 2 * 1 = 24.
   * The average step, 5/4, would have given 22.5 instead.
   */
  lemma PredictExample()
    ensures Predict([0.0, 1.0, 2.0, 3.0, 5.0], [Some(10.0), Some(12.0), Some(14.0), Some(16.0), Some(20.0)], 1) == 24.0
  {
    var pts := ExamplePoints();
    ExampleValidPoints();
    ExampleGradients();
    assert pts[0..] == pts;
    assert Sum([2.0, 2.0, 2.0, 2.0]) == 8.0 by {
      assert [2.0, 2.0, 2.0, 2.0][..3] == [2.0, 2.0, 2.0];
      assert [2.0, 2.0, 2.0][..2] == [2.0, 2.0];
      assert [2.0, 2.0][..1] == [2.0];
      assert [2.0][..0] == [];
    }
  }

  /** The valid points of the example: users 10 to 20 at times 0, 1, 2, 3 and 5. */
  function ExamplePoints(): seq<Observation>
  {
    [Observation(0.0, 10.0), Observation(1.0, 12.0), Observation(2.0, 14.0), Observation(3.0, 16.0), Observation(5.0, 20.0)]
  }

  /** Pairing the example's two lists, one sample at a time. */
  lemma ExampleValidPoints()
    ensures ValidPoints([0.0, 1.0, 2.0, 3.0, 5.0], [Some(10.0), Some(12.0), Some(14.0), Some(16.0), Some(20.0)]) == ExamplePoints()
  {
    var e: seq<Option<real>> := [];
    assert Pair([], e) == [];
    PairSnoc([], e, 0.0, Some(10.0));
    assert Pair([0.0], [Some(10.0)]) == ExamplePoints()[..1];
    PairSnoc([0.0], [Some(10.0)], 1.0, Some(12.0));
    assert Pair([0.0, 1.0], [Some(10.0), Some(12.0)]) == ExamplePoints()[..2];
    PairSnoc([0.0, 1.0], [Some(10.0), Some(12.0)], 2.0, Some(14.0));
    assert Pair([0.0, 1.0, 2.0], [Some(10.0), Some(12.0), Some(14.0)]) == ExamplePoints()[..3];
    PairSnoc([0.0, 1.0, 2.0], [Some(10.0), Some(12.0), Some(14.0)], 3.0, Some(16.0));
    assert [0.0, 1.0, 2.0] + [3.0] == [0.0, 1.0, 2.0, 3.0];
    assert [Some(10.0), Some(12.0), Some(14.0)] + [Some(16.0)] == [Some(10.0), Some(12.0), Some(14.0), Some(16.0)];
    assert Pair([0.0, 1.0, 2.0, 3.0], [Some(10.0), Some(12.0), Some(14.0), Some(16.0)]) == ExamplePoints()[..4];
    PairSnoc([0.0, 1.0, 2.0, 3.0], [Some(10.0), Some(12.0), Some(14.0), Some(16.0)], 5.0, Some(20.0));
    assert [0.0, 1.0, 2.0, 3.0] + [5.0] == [0.0, 1.0, 2.0, 3.0, 5.0];
    assert [Some(10.0), Some(12.0), Some(14.0), Some(16.0)] + [Some(20.0)]
      == [Some(10.0), Some(12.0), Some(14.0), Some(16.0), Some(20.0)];
    ValidPointsOfEqualLengths([0.0, 1.0, 2.0, 3.0, 5.0], [Some(10.0), Some(12.0), Some(14.0), Some(16.0), Some(20.0)]);
  }

  /** The four slopes of the example: every unit of time adds two users. */
  lemma ExampleGradients()
    ensures Gradients(ExamplePoints()) == [2.0, 2.0, 2.0, 2.0]
  {
    var pts := ExamplePoints();
    var p0, p1, p2, p3, p4 := pts[0], pts[1], pts[2], pts[3], pts[4];
    assert Slope(p0, p1) == [2.0] && Slope(p1, p2) == [2.0];
    assert Slope(p2, p3) == [2.0] && Slope(p3, p4) == [2.0];
    assert Gradients([p0]) == [];
    GradientsSnoc([p0], p1);
    GradientsSnoc([p0, p1], p2);
    assert [p0, p1] + [p2] == [p0, p1, p2];
    GradientsSnoc([p0, p1, p2], p3);
    assert [p0, p1, p2] + [p3] == [p0, p1, p2, p3];
    GradientsSnoc([p0, p1, p2, p3], p4);
    assert [p0, p1, p2, p3] + [p4] == pts;
  }

}
