/**
 * The `Monitoring` object: its identity, its twelve history lists, and the
 * operations that change or read them (`reset`, `tick`, `save_to_csv`,
 * `predict_users`). Prometheus answers reach `Tick` as a parameter.
 */
module Monitoring {
  import opened Wrappers
  import opened Queries
  import opened SystemFile
  import opened MonitorNames
  import opened History
  import opened Prediction
  import opened PyNum

  class Monitor {
    const serviceName: string
    const stackName: string
    /** The parsed stack file (`self.sys`). */
    const sys: Yaml
    const servicePrefix: string

    /** The twelve lists `tick` appends to, held together. */
    var lists: History
    /** `last_requests` and `last_timestamp`: cleared by `reset`, written nowhere else. */
    var lastRequests: Option<real>
    var lastTimestamp: Option<real>

    /** The twelve lists as one value. */
    function Snapshot(): History
      reads this
    {
      lists
    }

    function Id(): Identity
    {
      Identity(serviceName, stackName, sys)
    }

    /** The lists are in the staircase order that `reset` and `tick` keep. */
    ghost predicate Valid()
      reads this
    {
      Staircase(Snapshot())
    }

    /** `__init__`: the identity, the log prefix, and an empty history. */
    constructor(serviceName: string, stackName: string, sys: Yaml)
      ensures this.serviceName == serviceName && this.stackName == stackName && this.sys == sys
      ensures servicePrefix == ServicePrefix(serviceName, stackName)
      ensures Snapshot() == Empty && Valid()
      ensures lastRequests == None && lastTimestamp == None
    {
      this.serviceName := serviceName;
      this.stackName := stackName;
      this.sys := sys;
      servicePrefix := ServicePrefix(serviceName, stackName);
      new;
      Reset();
    }

    /** `reset`: every list is emptied and the last request counters are forgotten. */
    method Reset()
      modifies this
      ensures Snapshot() == Empty && Valid()
      ensures lastRequests == None && lastTimestamp == None
    {
      lists := Empty;
      lastRequests := None;
      lastTimestamp := None;
      EmptyIsStaircase();
    }

    /** `getUsers`: Little's law on the last response time and throughput. */
    function GetUsers(): real
      reads this
      requires |lists.rts| > 0 && |lists.tr| > 0
    {
      Little(lists.rts[|lists.rts| - 1], lists.tr[|lists.tr| - 1])
    }

    /**
     * `tick`: append `t`, then each getter's value in turn; the first
     * getter that raises ends the tick, leaving the appends made so far.
     */
    method Tick(t: real, a: Answers) returns (outcome: TickOutcome)
      modifies this
      ensures outcome == Outcome(Read(Id(), a))
      ensures Snapshot() == Ticked(old(Snapshot()), t, Read(Id(), a))
      ensures old(Valid()) ==> Valid()
      ensures lastRequests == old(lastRequests) && lastTimestamp == old(lastTimestamp)
    {
      ghost var rd := Read(Id(), a);
      if Valid() {
        TickedKeepsStaircase(Snapshot(), t, rd);
      }

      lists := lists.(time := lists.time + [t]);
      var rt := ResponseTime(serviceName, a.responseTime);
      if rt.Err? {
        return Raised(Rts, rt.error);
      }
      lists := lists.(rts := lists.rts + [rt.value]);
      var throughput := EnvoyRate(serviceName, a.throughput);
      if throughput.Err? {
        return Raised(Tr, throughput.error);
      }
      lists := lists.(tr := lists.tr + [throughput.value]);
      var c := GetCores(sys);
      if c.Err? {
        return Raised(Cores, c.error);
      }
      lists := lists.(cores := lists.cores + [c.value]);
      var rep := ActiveReplicas(stackName, serviceName, a.replicas);
      if rep.Err? {
        return Raised(Replica, rep.error);
      }
      lists := lists.(replica := lists.replica + [rep.value]);
      var ready := ActiveReplicas(stackName, serviceName, a.readyReplicas);
      if ready.Err? {
        return Raised(ReadyReplica, ready.error);
      }
      lists := lists.(readyReplica := lists.readyReplica + [ready.value]);
      var littleUsers := GetUsers();
      lists := lists.(users := lists.users + [littleUsers]);
      lists := lists.(activeUsers := lists.activeUsers + [Queries.ActiveUsers(a.activeUsers)]);
      lists := lists.(memory := lists.memory + [0.0]);
      var cpu := CpuUtilization(stackName, serviceName, a.cpu);
      if cpu.Err? {
        return Raised(Util, cpu.error);
      }
      lists := lists.(util := lists.util + [cpu.value]);
      var incoming := EnvoyRate(serviceName, a.incomingRps);
      if incoming.Err? {
        return Raised(EnvoyIncomingRps, incoming.error);
      }
      lists := lists.(envoyIncomingRps := lists.envoyIncomingRps + [incoming.value]);
      var completed := EnvoyRate(serviceName, a.completedRps);
      if completed.Err? {
        return Raised(EnvoyCompletedRps, completed.error);
      }
      lists := lists.(envoyCompletedRps := lists.envoyCompletedRps + [completed.value]);
      outcome := Completed;
    }

    /**
     * `save_to_csv`, without the file: the table written and its number of
     * rows, which for a monitor built by `reset` and `tick` is the number
     * of ticks that completed.
     */
    method SaveToCsv() returns (table: CsvTable, rows: nat)
      ensures table == CsvColumns(Snapshot()) && rows == CsvRows(Snapshot())
      ensures Valid() ==> rows == |lists.envoyCompletedRps|
    {
      var lengths := SavedLengths(Snapshot());
      rows := MinOf(lengths);
      table := CsvColumns(Snapshot());
      if Valid() {
        CsvRowsOfStaircase(Snapshot());
      }
    }

    /** `predict_users`: the extrapolated number of active users `horizon` steps ahead. */
    method PredictUsers(horizon: int) returns (p: real)
      ensures p == Predict(lists.time, lists.activeUsers, horizon)
    {
      var valid := ValidPoints(lists.time, lists.activeUsers);
      if |valid| < 5 {
        return if |valid| == 0 then 0.0 else valid[|valid| - 1].users;
      }
      var recent := valid[|valid| - 5..];
      assert Predict(lists.time, lists.activeUsers, horizon) == PredictRecent(recent, horizon);
      var gradients := RecentGradients(recent);
      if |gradients| == 0 {
        return recent[4].users;
      }
      var avgGradient := Sum(gradients) / |gradients| as real;
      var avgDt := recent[4].t - recent[3].t;
      var predictionDt := avgDt * horizon as real;
      p := MaxReal(0.0, recent[4].users + avgGradient * predictionDt);
    }
  }

  /** The slope loop of `predict_users`: one gradient per consecutive pair whose time advances. */
  method RecentGradients(recent: seq<Observation>) returns (gradients: seq<real>)
    ensures gradients == Gradients(recent)
  {
    gradients := [];
    if |recent| == 0 {
      return;
    }
    var i := 1;
    while i < |recent|
      invariant 1 <= i <= |recent|
      invariant gradients == Gradients(recent[..i])
    {
      var dt := recent[i].t - recent[i - 1].t;
      if dt > 0.0 {
        gradients := gradients + [(recent[i].users - recent[i - 1].users) / dt];
      }
      assert recent[..i + 1] == recent[..i] + [recent[i]];
      GradientsSnoc(recent[..i], recent[i]);
      i := i + 1;
    }
    assert recent[..|recent|] == recent;
  }

  /**
   * Because a raising tick keeps its `time` entry but not its active-user
   * sample, `predict_users` pairs later samples with earlier times: after a
   * tick that raised before `active_users` and one that completed, the one
   * valid point carries the first tick's time and the second tick's users.
   */
  lemma RaisedTickShiftsPrediction(t1: real, rd1: Readings, t2: real, rd2: Readings)
    requires Outcome(rd1).Raised? && Position(Outcome(rd1).at) <= Position(Column.ActiveUsers)
    requires Outcome(rd2) == Completed && rd2.activeUsers.Some?
    ensures var h := Ticked(Ticked(Empty, t1, rd1), t2, rd2);
      ValidPoints(h.time, h.activeUsers) == [Observation(t1, rd2.activeUsers.value)]
  {
    var h1 := Ticked(Empty, t1, rd1);
    var h := Ticked(h1, t2, rd2);
    TickedLengths(Empty, t1, rd1);
    assert Length(h1, Column.ActiveUsers) == 0;
    TickedCompleted(h1, t2, rd2);
    assert h.time == [t1, t2] && h.activeUsers == [rd2.activeUsers];
    assert h.time[..1] == [t1];
    var none: seq<Option<real>> := [];
    assert Pair([], none) == [];
    PairSnoc([], none, t1, rd2.activeUsers);
  }
}
