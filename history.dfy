/**
 * The per-tick history of a `Monitoring` object, as a value: the twelve
 * parallel lists `tick` appends to, what one `tick` does to them, and the
 * ten columns `save_to_csv` writes.
 */
module History {
  import opened Wrappers
  import opened Queries
  import opened SystemFile

  /** The twelve history lists, in the order `tick` appends to them. */
  datatype History = History(
    time: seq<real>,
    rts: seq<real>,
    tr: seq<real>,
    cores: seq<real>,
    replica: seq<int>,
    readyReplica: seq<int>,
    users: seq<real>,
    activeUsers: seq<Option<real>>,
    memory: seq<real>,
    util: seq<real>,
    envoyIncomingRps: seq<real>,
    envoyCompletedRps: seq<real>)

  /** The history `reset` leaves. */
  const Empty: History := History([], [], [], [], [], [], [], [], [], [], [], [])

  /** The twelve lists, by name. */
  datatype Column =
    | Time | Rts | Tr | Cores | Replica | ReadyReplica
    | Users | ActiveUsers | Memory | Util | EnvoyIncomingRps | EnvoyCompletedRps

  /** The place of a list in the sequence of appends of `tick`. */
  function Position(c: Column): (p: nat)
    ensures p < 12
  {
    match c
    case Time => 0
    case Rts => 1
    case Tr => 2
    case Cores => 3
    case Replica => 4
    case ReadyReplica => 5
    case Users => 6
    case ActiveUsers => 7
    case Memory => 8
    case Util => 9
    case EnvoyIncomingRps => 10
    case EnvoyCompletedRps => 11
  }

  function Length(h: History, c: Column): nat
  {
    match c
    case Time => |h.time|
    case Rts => |h.rts|
    case Tr => |h.tr|
    case Cores => |h.cores|
    case Replica => |h.replica|
    case ReadyReplica => |h.readyReplica|
    case Users => |h.users|
    case ActiveUsers => |h.activeUsers|
    case Memory => |h.memory|
    case Util => |h.util|
    case EnvoyIncomingRps => |h.envoyIncomingRps|
    case EnvoyCompletedRps => |h.envoyCompletedRps|
  }

  /** All twelve lists have the same length. */
  predicate Aligned(h: History)
  {
    && |h.rts| == |h.time| && |h.tr| == |h.time| && |h.cores| == |h.time|
    && |h.replica| == |h.time| && |h.readyReplica| == |h.time| && |h.users| == |h.time|
    && |h.activeUsers| == |h.time| && |h.memory| == |h.time| && |h.util| == |h.time|
    && |h.envoyIncomingRps| == |h.time| && |h.envoyCompletedRps| == |h.time|
  }

  /** Every list of `h` is a prefix of the same list of `h'`: nothing recorded is lost or changed. */
  ghost predicate Extends(h: History, h': History)
  {
    && h.time <= h'.time && h.rts <= h'.rts && h.tr <= h'.tr && h.cores <= h'.cores
    && h.replica <= h'.replica && h.readyReplica <= h'.readyReplica && h.users <= h'.users
    && h.activeUsers <= h'.activeUsers && h.memory <= h'.memory && h.util <= h'.util
    && h.envoyIncomingRps <= h'.envoyIncomingRps && h.envoyCompletedRps <= h'.envoyCompletedRps
  }

  /**
   * A list appended to earlier in `tick` is never shorter than one appended
   * to later: what every history built by `reset` and `tick` satisfies.
   */
  predicate Staircase(h: History)
  {
    && |h.time| >= |h.rts| >= |h.tr| >= |h.cores| >= |h.replica| >= |h.readyReplica|
    >= |h.users| >= |h.activeUsers| >= |h.memory| >= |h.util| >= |h.envoyIncomingRps|
    >= |h.envoyCompletedRps|
  }

  /** In staircase order, a list appended to earlier is never shorter than one appended to later. */
  lemma StaircaseOrder(h: History, c: Column, d: Column)
    requires Staircase(h) && Position(c) <= Position(d)
    ensures Length(h, d) <= Length(h, c)
  {
  }

  // ----------------------------------------------------------------- one tick

  /** What the monitor knows besides its lists: its identity and its parsed stack file. */
  datatype Identity = Identity(serviceName: string, stackName: string, sys: Yaml)

  /** The answers to the Prometheus queries of one tick, in the order `tick` issues them. */
  datatype Answers = Answers(
    responseTime: QueryResult,
    throughput: QueryResult,
    replicas: QueryResult,
    readyReplicas: QueryResult,
    activeUsers: QueryResult,
    cpu: QueryResult,
    incomingRps: QueryResult,
    completedRps: QueryResult)

  /** The result of every getter `tick` calls. */
  datatype Readings = Readings(
    rts: Result<real, Failure>,
    tr: Result<real, Failure>,
    cores: Result<real, Failure>,
    replica: Result<int, Failure>,
    readyReplica: Result<int, Failure>,
    activeUsers: Option<real>,
    util: Result<real, Failure>,
    envoyIncomingRps: Result<real, Failure>,
    envoyCompletedRps: Result<real, Failure>)

  /** Each getter applied to its own answer (`getTroughput` is `get_completed_rps`). */
  function Read(id: Identity, a: Answers): Readings
  {
    Readings(
      ResponseTime(id.serviceName, a.responseTime),
      EnvoyRate(id.serviceName, a.throughput),
      GetCores(id.sys),
      ActiveReplicas(id.stackName, id.serviceName, a.replicas),
      ActiveReplicas(id.stackName, id.serviceName, a.readyReplicas),
      Queries.ActiveUsers(a.activeUsers),
      CpuUtilization(id.stackName, id.serviceName, a.cpu),
      EnvoyRate(id.serviceName, a.incomingRps),
      EnvoyRate(id.serviceName, a.completedRps))
  }

  /** How a tick ends: normally, or with the exception of the first getter that raised. */
  datatype TickOutcome = Completed | Raised(at: Column, reason: Failure)

  /** The first getter, in tick order, that raises. */
  function Outcome(rd: Readings): TickOutcome
  {
    if rd.rts.Err? then Raised(Rts, rd.rts.error)
    else if rd.tr.Err? then Raised(Tr, rd.tr.error)
    else if rd.cores.Err? then Raised(Cores, rd.cores.error)
    else if rd.replica.Err? then Raised(Replica, rd.replica.error)
    else if rd.readyReplica.Err? then Raised(ReadyReplica, rd.readyReplica.error)
    else if rd.util.Err? then Raised(Util, rd.util.error)
    else if rd.envoyIncomingRps.Err? then Raised(EnvoyIncomingRps, rd.envoyIncomingRps.error)
    else if rd.envoyCompletedRps.Err? then Raised(EnvoyCompletedRps, rd.envoyCompletedRps.error)
    else Completed
  }

  /** The error getter `c` raised in this tick, if it raised; `time`, `users`, `active_users` and `memory` have no getter that can. */
  function Failed(rd: Readings, c: Column): Option<Failure>
  {
    match c
    case Rts => if rd.rts.Err? then Some(rd.rts.error) else None
    case Tr => if rd.tr.Err? then Some(rd.tr.error) else None
    case Cores => if rd.cores.Err? then Some(rd.cores.error) else None
    case Replica => if rd.replica.Err? then Some(rd.replica.error) else None
    case ReadyReplica => if rd.readyReplica.Err? then Some(rd.readyReplica.error) else None
    case Util => if rd.util.Err? then Some(rd.util.error) else None
    case EnvoyIncomingRps => if rd.envoyIncomingRps.Err? then Some(rd.envoyIncomingRps.error) else None
    case EnvoyCompletedRps => if rd.envoyCompletedRps.Err? then Some(rd.envoyCompletedRps.error) else None
    case _ => None
  }

  /**
   * A tick raises at `c` with `e` exactly when the getter of `c` raised `e`
   * and every getter called before it returned.
   */
  lemma OutcomeRaised(rd: Readings, c: Column, e: Failure)
    ensures Outcome(rd) == Raised(c, e) <==>
      Failed(rd, c) == Some(e) && forall d :: Position(d) < Position(c) ==> Failed(rd, d) == None
  {
    if Outcome(rd) == Raised(c, e) {
      forall d | Position(d) < Position(c) ensures Failed(rd, d) == None {
      }
    } else if Failed(rd, c) == Some(e) {
      match c
      case Rts =>
      case Tr => assert Failed(rd, Rts) != None;
      case Cores => assert Failed(rd, Rts) != None || Failed(rd, Tr) != None;
      case Replica => assert Failed(rd, Rts) != None || Failed(rd, Tr) != None || Failed(rd, Cores) != None;
      case ReadyReplica =>
        assert Failed(rd, Rts) != None || Failed(rd, Tr) != None || Failed(rd, Cores) != None
          || Failed(rd, Replica) != None;
      case Util =>
        assert Failed(rd, Rts) != None || Failed(rd, Tr) != None || Failed(rd, Cores) != None
          || Failed(rd, Replica) != None || Failed(rd, ReadyReplica) != None;
      case EnvoyIncomingRps =>
        assert Failed(rd, Rts) != None || Failed(rd, Tr) != None || Failed(rd, Cores) != None
          || Failed(rd, Replica) != None || Failed(rd, ReadyReplica) != None || Failed(rd, Util) != None;
      case EnvoyCompletedRps =>
        assert Failed(rd, Rts) != None || Failed(rd, Tr) != None || Failed(rd, Cores) != None
          || Failed(rd, Replica) != None || Failed(rd, ReadyReplica) != None || Failed(rd, Util) != None
          || Failed(rd, EnvoyIncomingRps) != None;
    }
  }

  /** How many lists a tick appends to before it returns or raises. */
  function Reached(o: TickOutcome): nat
  {
    match o
    case Completed => 12
    case Raised(at, _) => Position(at)
  }

  /** Little's law: the users in the system are the response time times the throughput. */
  function Little(responseTime: real, throughput: real): real
  {
    responseTime * throughput
  }

  /**
   * The history after one `tick` at time `t`: `time` first, then each list
   * in turn, each getter's value appended once it has returned; the first
   * getter that raises ends the tick and nothing is rolled back.
   */
  function Ticked(h: History, t: real, rd: Readings): (r: History)
    ensures r.time == h.time + [t]
  {
    var h := h.(time := h.time + [t]);
    if rd.rts.Err? then h else
    var h := h.(rts := h.rts + [rd.rts.value]);
    if rd.tr.Err? then h else
    var h := h.(tr := h.tr + [rd.tr.value]);
    if rd.cores.Err? then h else
    var h := h.(cores := h.cores + [rd.cores.value]);
    if rd.replica.Err? then h else
    var h := h.(replica := h.replica + [rd.replica.value]);
    if rd.readyReplica.Err? then h else
    var h := h.(readyReplica := h.readyReplica + [rd.readyReplica.value]);
    var h := h.(users := h.users + [Little(rd.rts.value, rd.tr.value)]);
    var h := h.(activeUsers := h.activeUsers + [rd.activeUsers]);
    var h := h.(memory := h.memory + [0.0]);
    if rd.util.Err? then h else
    var h := h.(util := h.util + [rd.util.value]);
    if rd.envoyIncomingRps.Err? then h else
    var h := h.(envoyIncomingRps := h.envoyIncomingRps + [rd.envoyIncomingRps.value]);
    if rd.envoyCompletedRps.Err? then h else
    h.(envoyCompletedRps := h.envoyCompletedRps + [rd.envoyCompletedRps.value])
  }

  /**
   * A tick appends exactly one element to each list it reaches and leaves
   * the others as they were.
   */
  lemma TickedLengths(h: History, t: real, rd: Readings)
    ensures forall c ::
      Length(Ticked(h, t, rd), c) == Length(h, c) + (if Position(c) < Reached(Outcome(rd)) then 1 else 0)
  {
    if rd.rts.Err? {
    } else if rd.tr.Err? {
    } else if rd.cores.Err? {
    } else {
      LaterTickLengths(h, t, rd);
    }
  }

  /** `TickedLengths` for a tick that got past `cores`. */
  lemma LaterTickLengths(h: History, t: real, rd: Readings)
    requires rd.rts.Ok? && rd.tr.Ok? && rd.cores.Ok?
    ensures forall c ::
      Length(Ticked(h, t, rd), c) == Length(h, c) + (if Position(c) < Reached(Outcome(rd)) then 1 else 0)
  {
    if rd.replica.Err? {
    } else if rd.readyReplica.Err? {
    } else if rd.util.Err? {
    } else {
      LastTickLengths(h, t, rd);
    }
  }

  /** `TickedLengths` for a tick that got past `util`. */
  lemma LastTickLengths(h: History, t: real, rd: Readings)
    requires rd.rts.Ok? && rd.tr.Ok? && rd.cores.Ok? && rd.replica.Ok? && rd.readyReplica.Ok? && rd.util.Ok?
    ensures forall c ::
      Length(Ticked(h, t, rd), c) == Length(h, c) + (if Position(c) < Reached(Outcome(rd)) then 1 else 0)
  {
    if rd.envoyIncomingRps.Err? {
    } else if rd.envoyCompletedRps.Err? {
    }
  }

  /** What a tick recorded before is kept: nothing is lost or changed. */
  lemma TickedExtends(h: History, t: real, rd: Readings)
    ensures Extends(h, Ticked(h, t, rd))
  {
    if rd.rts.Err? {
    } else if rd.tr.Err? {
    } else if rd.cores.Err? {
    } else {
      LaterTickExtends(h, t, rd);
    }
  }

  /** `TickedExtends` for a tick that got past `cores`. */
  lemma LaterTickExtends(h: History, t: real, rd: Readings)
    requires rd.rts.Ok? && rd.tr.Ok? && rd.cores.Ok?
    ensures Extends(h, Ticked(h, t, rd))
  {
    if rd.replica.Err? {
    } else if rd.readyReplica.Err? {
    } else if rd.util.Err? {
    } else {
      LastTickExtends(h, t, rd);
    }
  }

  /** `TickedExtends` for a tick that got past `util`. */
  lemma LastTickExtends(h: History, t: real, rd: Readings)
    requires rd.rts.Ok? && rd.tr.Ok? && rd.cores.Ok? && rd.replica.Ok? && rd.readyReplica.Ok? && rd.util.Ok?
    ensures Extends(h, Ticked(h, t, rd))
  {
    if rd.envoyIncomingRps.Err? {
    } else if rd.envoyCompletedRps.Err? {
    }
  }

  /**
   * The lists before position `n` are those of `h` with this tick's values
   * appended: `t`, each getter's value, Little's law, the active-user
   * sample and 0 for memory. (`TickedLengths` says the others are unchanged.)
   */
  predicate ValuesAppended(h: History, h': History, t: real, rd: Readings, n: nat)
  {
    && (Position(Time) < n ==> h'.time == h.time + [t])
    && (Position(Rts) < n ==> rd.rts.Ok? && h'.rts == h.rts + [rd.rts.value])
    && (Position(Tr) < n ==> rd.tr.Ok? && h'.tr == h.tr + [rd.tr.value])
    && (Position(Cores) < n ==> rd.cores.Ok? && h'.cores == h.cores + [rd.cores.value])
    && (Position(Replica) < n ==> rd.replica.Ok? && h'.replica == h.replica + [rd.replica.value])
    && (Position(ReadyReplica) < n ==>
          rd.readyReplica.Ok? && h'.readyReplica == h.readyReplica + [rd.readyReplica.value])
    && (Position(Users) < n ==>
          rd.rts.Ok? && rd.tr.Ok? && h'.users == h.users + [Little(rd.rts.value, rd.tr.value)])
    && (Position(ActiveUsers) < n ==> h'.activeUsers == h.activeUsers + [rd.activeUsers])
    && (Position(Memory) < n ==> h'.memory == h.memory + [0.0])
    && (Position(Util) < n ==> rd.util.Ok? && h'.util == h.util + [rd.util.value])
    && (Position(EnvoyIncomingRps) < n ==>
          rd.envoyIncomingRps.Ok? && h'.envoyIncomingRps == h.envoyIncomingRps + [rd.envoyIncomingRps.value])
    && (Position(EnvoyCompletedRps) < n ==>
          rd.envoyCompletedRps.Ok? && h'.envoyCompletedRps == h.envoyCompletedRps + [rd.envoyCompletedRps.value])
  }


  /**
   * Every tick, completed or not, appends to each list it reaches the value
   * its getter returned, and leaves the other lists as they were.
   */
  lemma TickedValues(h: History, t: real, rd: Readings)
    ensures ValuesAppended(h, Ticked(h, t, rd), t, rd, Reached(Outcome(rd)))
  {
    if rd.rts.Err? {
    } else if rd.tr.Err? {
    } else if rd.cores.Err? {
    } else {
      LaterTickValues(h, t, rd);
    }
  }

  /** `TickedValues` for a tick that got past `cores`. */
  lemma LaterTickValues(h: History, t: real, rd: Readings)
    requires rd.rts.Ok? && rd.tr.Ok? && rd.cores.Ok?
    ensures ValuesAppended(h, Ticked(h, t, rd), t, rd, Reached(Outcome(rd)))
  {
    var h' := Ticked(h, t, rd);
    if rd.replica.Err? {
      assert Reached(Outcome(rd)) == Position(Replica);
      assert h'.cores == h.cores + [rd.cores.value];
    } else if rd.readyReplica.Err? {
      assert Reached(Outcome(rd)) == Position(ReadyReplica);
      assert h'.replica == h.replica + [rd.replica.value];
    } else {
      LastTickValues(h, t, rd);
    }
  }

  /** `TickedValues` for a tick that got past `ready_replica`. */
  lemma LastTickValues(h: History, t: real, rd: Readings)
    requires rd.rts.Ok? && rd.tr.Ok? && rd.cores.Ok? && rd.replica.Ok? && rd.readyReplica.Ok?
    ensures ValuesAppended(h, Ticked(h, t, rd), t, rd, Reached(Outcome(rd)))
  {
    if rd.util.Err? {
      assert Reached(Outcome(rd)) == Position(Util);
    } else if rd.envoyIncomingRps.Err? {
      assert Reached(Outcome(rd)) == Position(EnvoyIncomingRps);
    } else if rd.envoyCompletedRps.Err? {
      assert Reached(Outcome(rd)) == Position(EnvoyCompletedRps);
    } else {
      assert Reached(Outcome(rd)) == 12;
    }
  }

  /**
   * A tick in which no getter raises grows every list by one: the new time
   * is `t`, each list gets its getter's value, the memory placeholder is 0,
   * and the Little's-law users entry is the new response time times the new
   * throughput.
   */
  lemma TickedCompleted(h: History, t: real, rd: Readings)
    requires Outcome(rd) == Completed
    ensures var h' := Ticked(h, t, rd);
      && (forall c :: Length(h', c) == Length(h, c) + 1)
      && h'.time == h.time + [t]
      && h'.memory == h.memory + [0.0]
      && h'.rts == h.rts + [rd.rts.value]
      && h'.tr == h.tr + [rd.tr.value]
      && h'.cores == h.cores + [rd.cores.value]
      && h'.replica == h.replica + [rd.replica.value]
      && h'.readyReplica == h.readyReplica + [rd.readyReplica.value]
      && h'.users == h.users + [Little(rd.rts.value, rd.tr.value)]
      && h'.users[|h'.users| - 1] == h'.rts[|h'.rts| - 1] * h'.tr[|h'.tr| - 1]
      && h'.activeUsers == h.activeUsers + [rd.activeUsers]
      && h'.util == h.util + [rd.util.value]
      && h'.envoyIncomingRps == h.envoyIncomingRps + [rd.envoyIncomingRps.value]
      && h'.envoyCompletedRps == h.envoyCompletedRps + [rd.envoyCompletedRps.value]
  {
    TickedLengths(h, t, rd);
    TickedValues(h, t, rd);
  }

  /**
   * The tick completes exactly when every getter it calls returns; it can
   * only stop at a list filled by a getter that raises, never at `time`,
   * `users`, `active_users` or `memory`.
   */
  lemma OutcomeCompleted(rd: Readings)
    ensures Outcome(rd) == Completed <==>
      rd.rts.Ok? && rd.tr.Ok? && rd.cores.Ok? && rd.replica.Ok? && rd.readyReplica.Ok?
      && rd.util.Ok? && rd.envoyIncomingRps.Ok? && rd.envoyCompletedRps.Ok?
    ensures Outcome(rd).Raised? ==> Outcome(rd).at !in {Time, Users, ActiveUsers, Memory}
  {
  }

  /**
   * A response time of zero or less raises after `time` was appended:
   * `time` grows, every other list stays as it was.
   */
  lemma RejectedResponseTime(h: History, t: real, id: Identity, a: Answers)
    requires id.serviceName != ""
    requires |a.responseTime| > 0 && a.responseTime[0].value.Some?
    requires a.responseTime[0].value.value.value <= 0.0
    ensures Outcome(Read(id, a)) == Raised(Rts, NonPositiveResponseTime)
    ensures Ticked(h, t, Read(id, a)) == h.(time := h.time + [t])
  {
  }

  /** Aligned lists stay aligned through a tick that completes. */
  lemma CompletedKeepsAligned(h: History, t: real, rd: Readings)
    requires Aligned(h) && Outcome(rd) == Completed
    ensures Aligned(Ticked(h, t, rd))
  {
  }

  /**
   * A tick that raises leaves the lists of different lengths: `time` is one
   * longer than `envoy_completed_rps`, whatever getter failed.
   */
  lemma RaisedBreaksAlignment(h: History, t: real, rd: Readings)
    requires Aligned(h) && Outcome(rd).Raised?
    ensures var h' := Ticked(h, t, rd); |h'.time| == |h'.envoyCompletedRps| + 1
    ensures !Aligned(Ticked(h, t, rd))
  {
    if rd.rts.Err? {
    } else if rd.tr.Err? {
    } else if rd.cores.Err? {
    } else if rd.replica.Err? {
    } else if rd.readyReplica.Err? {
    } else if rd.util.Err? {
    } else if rd.envoyIncomingRps.Err? {
    } else if rd.envoyCompletedRps.Err? {
    }
  }

  /** Every tick keeps the lists in staircase order. */
  lemma TickedKeepsStaircase(h: History, t: real, rd: Readings)
    requires Staircase(h)
    ensures Staircase(Ticked(h, t, rd))
  {
    if rd.rts.Err? {
    } else if rd.tr.Err? {
    } else if rd.cores.Err? {
    } else {
      LaterTickKeepsStaircase(h, t, rd);
    }
  }

  /** `TickedKeepsStaircase` for a tick that got past `cores`. */
  lemma LaterTickKeepsStaircase(h: History, t: real, rd: Readings)
    requires Staircase(h)
    requires rd.rts.Ok? && rd.tr.Ok? && rd.cores.Ok?
    ensures Staircase(Ticked(h, t, rd))
  {
    if rd.replica.Err? {
    } else if rd.readyReplica.Err? {
    } else if rd.util.Err? {
    } else {
      LastTickKeepsStaircase(h, t, rd);
    }
  }

  /** `TickedKeepsStaircase` for a tick that got past `util`. */
  lemma LastTickKeepsStaircase(h: History, t: real, rd: Readings)
    requires Staircase(h)
    requires rd.rts.Ok? && rd.tr.Ok? && rd.cores.Ok? && rd.replica.Ok? && rd.readyReplica.Ok? && rd.util.Ok?
    ensures Staircase(Ticked(h, t, rd))
  {
    if rd.envoyIncomingRps.Err? {
    } else if rd.envoyCompletedRps.Err? {
    }
  }

  lemma EmptyIsStaircase()
    ensures Staircase(Empty)
  {
  }

  // -------------------------------------------------------------- save_to_csv

  /** The columns `save_to_csv` writes, in its order; `users` holds `active_users`. */
  datatype CsvTable = CsvTable(
    cores: seq<real>,
    rts: seq<real>,
    tr: seq<real>,
    users: seq<Option<real>>,
    replica: seq<int>,
    readyReplica: seq<int>,
    util: seq<real>,
    mem: seq<real>,
    envoyIncomingRps: seq<real>,
    envoyCompletedRps: seq<real>)

  /** The ten lengths `save_to_csv` logs; neither `time` nor the Little's-law `users` is among them. */
  function SavedLengths(h: History): (s: seq<nat>)
    ensures |s| == 10
  {
    [|h.cores|, |h.rts|, |h.tr|, |h.activeUsers|, |h.replica|,
     |h.readyReplica|, |h.util|, |h.memory|, |h.envoyIncomingRps|, |h.envoyCompletedRps|]
  }

  /** Python's `min` over a non-empty list. */
  function MinOf(s: seq<nat>): (m: nat)
    requires |s| > 0
    ensures m in s
    ensures forall i :: 0 <= i < |s| ==> m <= s[i]
  {
    if |s| == 1 then s[0]
    else
      var rest := MinOf(s[1..]);
      assert forall i :: 1 <= i < |s| ==> s[i] == s[1..][i - 1];
      if s[0] <= rest then s[0] else rest
  }

  /**
   * The table `save_to_csv` writes: the ten columns cut to the length of
   * the shortest one, so that mismatched lengths never make it fail.
   */
  function CsvColumns(h: History): (r: CsvTable)
    ensures var m := MinOf(SavedLengths(h));
      && |r.cores| == |r.rts| == |r.tr| == |r.users| == |r.replica| == m
      && |r.readyReplica| == |r.util| == |r.mem| == |r.envoyIncomingRps| == |r.envoyCompletedRps| == m
      && r.cores <= h.cores && r.rts <= h.rts && r.tr <= h.tr && r.users <= h.activeUsers
      && r.replica <= h.replica && r.readyReplica <= h.readyReplica && r.util <= h.util
      && r.mem <= h.memory && r.envoyIncomingRps <= h.envoyIncomingRps
      && r.envoyCompletedRps <= h.envoyCompletedRps
  {
    var s := SavedLengths(h);
    var m := MinOf(s);
    assert m <= s[0] && m <= s[1] && m <= s[2] && m <= s[3] && m <= s[4];
    assert m <= s[5] && m <= s[6] && m <= s[7] && m <= s[8] && m <= s[9];
    CsvTable(h.cores[..m], h.rts[..m], h.tr[..m], h.activeUsers[..m], h.replica[..m],
             h.readyReplica[..m], h.util[..m], h.memory[..m], h.envoyIncomingRps[..m],
             h.envoyCompletedRps[..m])
  }

  /** The number of rows `save_to_csv` writes. */
  function CsvRows(h: History): nat
  {
    MinOf(SavedLengths(h))
  }

  /** The row count is no longer than any of the ten saved columns. */
  lemma CsvRowsIsShortest(h: History)
    ensures forall c :: c != Time && c != Users ==> CsvRows(h) <= Length(h, c)
  {
    var s := SavedLengths(h);
    var m := MinOf(s);
    forall c | c != Time && c != Users ensures m <= Length(h, c) {
      match c
      case Cores => assert s[0] == Length(h, c);
      case Rts => assert s[1] == Length(h, c);
      case Tr => assert s[2] == Length(h, c);
      case ActiveUsers => assert s[3] == Length(h, c);
      case Replica => assert s[4] == Length(h, c);
      case ReadyReplica => assert s[5] == Length(h, c);
      case Util => assert s[6] == Length(h, c);
      case Memory => assert s[7] == Length(h, c);
      case EnvoyIncomingRps => assert s[8] == Length(h, c);
      case EnvoyCompletedRps => assert s[9] == Length(h, c);
    }
  }

  /** The row count is the length of one of the ten saved columns: no row is invented. */
  lemma CsvRowsIsSavedLength(h: History)
    ensures exists c :: c != Time && c != Users && CsvRows(h) == Length(h, c)
  {
    var s := SavedLengths(h);
    var i :| 0 <= i < 10 && s[i] == MinOf(s);
    var c := [Cores, Rts, Tr, ActiveUsers, Replica, ReadyReplica, Util, Memory, EnvoyIncomingRps, EnvoyCompletedRps][i];
    assert Length(h, c) == s[i];
  }

  /**
   * In a history built by `reset` and `tick`, the dump has one row per tick
   * that reached `envoy_completed_rps`, the last list appended to.
   */
  lemma CsvRowsOfStaircase(h: History)
    requires Staircase(h)
    ensures CsvRows(h) == |h.envoyCompletedRps|
  {
    CsvRowsIsShortest(h);
    assert CsvRows(h) <= Length(h, EnvoyCompletedRps);
    CsvRowsIsSavedLength(h);
    var c :| c != Time && c != Users && CsvRows(h) == Length(h, c);
    StaircaseOrder(h, c, EnvoyCompletedRps);
  }

  /** An aligned history is dumped whole. */
  lemma CsvRowsOfAligned(h: History)
    requires Aligned(h)
    ensures CsvRows(h) == |h.time|
  {
    CsvRowsIsShortest(h);
    assert CsvRows(h) <= Length(h, Rts);
    CsvRowsIsSavedLength(h);
  }

  /**
   * Because nothing is rolled back, a tick that raised at the CPU reading
   * leaves its `cores` entry behind, and the next completed tick's rates
   * land in the same row: row 0 of the dump mixes two ticks.
   */
  lemma PartialTickShiftsRows(t1: real, rd1: Readings, t2: real, rd2: Readings)
    requires Outcome(rd1).Raised? && Outcome(rd1).at == Util
    requires Outcome(rd2) == Completed
    ensures var table := CsvColumns(Ticked(Ticked(Empty, t1, rd1), t2, rd2));
      && table.cores == [rd1.cores.value]
      && table.envoyCompletedRps == [rd2.envoyCompletedRps.value]
  {
    assert rd1.rts.Ok? && rd1.tr.Ok? && rd1.cores.Ok? && rd1.replica.Ok? && rd1.readyReplica.Ok? && rd1.util.Err?;
    OutcomeCompleted(rd2);
    var h1 := Ticked(Empty, t1, rd1);
    var h2 := Ticked(h1, t2, rd2);
    EmptyIsStaircase();
    TickedKeepsStaircase(Empty, t1, rd1);
    TickedKeepsStaircase(h1, t2, rd2);
    CsvRowsOfStaircase(h2);
    assert h1.cores == [rd1.cores.value] && h1.envoyCompletedRps == [];
    assert h2.cores[..1] == [rd1.cores.value];
    assert h2.envoyCompletedRps == [rd2.envoyCompletedRps.value];
  }
}
