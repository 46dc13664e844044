/**
 * `get_cpu_delta` of `getSystemUtil.py`: the CPU percentage of a container
 * from two consecutive Docker stats snapshots.
 */
module SystemUtil {
  import opened Wrappers

  /** The `cpu_usage` object of a snapshot; `percpuUsage` is absent on cgroup v2 hosts. */
  datatype CpuUsage = CpuUsage(totalUsage: int, percpuUsage: Option<seq<int>>)

  /** The `cpu_stats` (or `precpu_stats`) object of a snapshot. */
  datatype CpuStats = CpuStats(cpuUsage: CpuUsage, systemCpuUsage: int)

  /** A Docker stats document: the current reading and the previous one. */
  datatype DockerStats = DockerStats(cpuStats: CpuStats, precpuStats: CpuStats)

  /** `len(percpu_usage)`, or 1 when the key is missing. */
  function NumCpus(u: CpuUsage): nat
  {
    match u.percpuUsage
    case None => 1
    case Some(l) => |l|
  }

  function CpuDeltaOf(stats: DockerStats): int
  {
    stats.cpuStats.cpuUsage.totalUsage - stats.precpuStats.cpuUsage.totalUsage
  }

  function SystemDeltaOf(stats: DockerStats): int
  {
    stats.cpuStats.systemCpuUsage - stats.precpuStats.systemCpuUsage
  }

  /**
   * The container's share of the host's CPU time between the two snapshots,
   * scaled by the number of CPUs and expressed as a percentage; 0.0 unless
   * both the container and the host consumed CPU time.
   */
  function CpuDelta(stats: DockerStats): (r: real)
    ensures 0.0 <= r
    ensures !(SystemDeltaOf(stats) > 0 && CpuDeltaOf(stats) > 0) ==> r == 0.0
    ensures SystemDeltaOf(stats) > 0 && CpuDeltaOf(stats) > 0 ==>
      r * SystemDeltaOf(stats) as real == CpuDeltaOf(stats) as real * NumCpus(stats.cpuStats.cpuUsage) as real * 100.0
  {
    var cpuDelta := CpuDeltaOf(stats);
    var systemDelta := SystemDeltaOf(stats);
    if systemDelta > 0 && cpuDelta > 0 then
      var numCpus := NumCpus(stats.cpuStats.cpuUsage);
      PercentNonNegative(cpuDelta as real, systemDelta as real, numCpus as real);
      (cpuDelta as real / systemDelta as real) * numCpus as real * 100.0
    else
      0.0
  }

  lemma PercentNonNegative(c: real, s: real, n: real)
    requires 0.0 < c && 0.0 < s && 0.0 <= n
    ensures 0.0 <= (c / s) * n * 100.0
    ensures (c / s) * n * 100.0 * s == c * n * 100.0
  {
    assert 0.0 < c / s;
  }

  /**
   * The result is positive exactly when both deltas are positive and the
   * per-CPU list is not empty: an empty `percpu_usage` list counts zero
   * CPUs, only a missing one counts one.
   */
  lemma CpuDeltaPositive(stats: DockerStats)
    ensures CpuDelta(stats) > 0.0 <==>
      SystemDeltaOf(stats) > 0 && CpuDeltaOf(stats) > 0 && NumCpus(stats.cpuStats.cpuUsage) > 0
  {
    if SystemDeltaOf(stats) > 0 && CpuDeltaOf(stats) > 0 && NumCpus(stats.cpuStats.cpuUsage) > 0 {
      var c, s, n := CpuDeltaOf(stats) as real, SystemDeltaOf(stats) as real, NumCpus(stats.cpuStats.cpuUsage) as real;
      assert 0.0 < c / s;
      assert 0.0 < (c / s) * n;
    }
  }

  /**
   * Without a per-CPU list the result is the container's share of the host
   * time as a percentage, so at most 100 when the container used no more
   * time than the host reported.
   */
  lemma CpuDeltaSingleCpu(stats: DockerStats)
    requires stats.cpuStats.cpuUsage.percpuUsage.None?
    requires 0 < CpuDeltaOf(stats) <= SystemDeltaOf(stats)
    ensures 0.0 < CpuDelta(stats) <= 100.0
  {
    var c, s := CpuDeltaOf(stats) as real, SystemDeltaOf(stats) as real;
    assert c / s <= 1.0;
  }
}
