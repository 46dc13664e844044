/**
 * The staged load shape of `SoyMonoShorterIfLogin.py`: a list of stages,
 * each with an absolute end time, scanned front to back; the first stage
 * whose `duration` lies ahead of the run time decides the tick.
 */
module StageShape {
  import opened Wrappers
  import opened LoadShapes

  datatype Stage = Stage(duration: int, users: int, spawnRate: int)

  const MaxUsers: int := 200
  const PhaseDuration: int := 60
  const RestDuration: int := 240

  /** The two-entry list that `* 5` repeats. */
  const BaseStages: seq<Stage> := [
    Stage(PhaseDuration, MaxUsers, 10),
    Stage(PhaseDuration + RestDuration, 0, 0)
  ]

  /** Python's list repetition `s * n`. */
  function Repeat(s: seq<Stage>, n: nat): (r: seq<Stage>)
    ensures |r| == |s| * n
  {
    if n == 0 then [] else s + Repeat(s, n - 1)
  }

  /** The class attribute `stages`. */
  const Stages: seq<Stage> := Repeat(BaseStages, 5)

  /**
   * The `for stage in self.stages` scan: the users and spawn rate of the
   * first stage whose duration is still ahead of `runTime`, or `None`.
   */
  function FirstMatch(stages: seq<Stage>, runTime: real): Option<Target>
  {
    if |stages| == 0 then None
    else if runTime < stages[0].duration as real then
      Some(Target(stages[0].users, stages[0].spawnRate as real))
    else
      FirstMatch(stages[1..], runTime)
  }

  /**
   * The scan finds nothing exactly when every stage has ended, and
   * otherwise the target of the first stage that has not.
   */
  lemma {:induction false} FirstMatchIsFirst(stages: seq<Stage>, runTime: real)
    ensures var r := FirstMatch(stages, runTime);
      r.None? <==> forall i :: 0 <= i < |stages| ==> stages[i].duration as real <= runTime
    ensures var r := FirstMatch(stages, runTime);
      r.Some? ==>
        exists i :: (0 <= i < |stages| && runTime < stages[i].duration as real
                     && r.value == Target(stages[i].users, stages[i].spawnRate as real)
                     && forall j :: 0 <= j < i ==> stages[j].duration as real <= runTime)
  {
    if |stages| > 0 && stages[0].duration as real <= runTime {
      FirstMatchIsFirst(stages[1..], runTime);
      assert forall i :: 1 <= i < |stages| ==> stages[i] == stages[1..][i - 1];
      var r := FirstMatch(stages, runTime);
      if r.Some? {
        var i :| 0 <= i < |stages[1..]| && runTime < stages[1..][i].duration as real
                 && r.value == Target(stages[1..][i].users, stages[1..][i].spawnRate as real)
                 && forall j :: 0 <= j < i ==> stages[1..][j].duration as real <= runTime;
        assert 0 <= i + 1 < |stages| && runTime < stages[i + 1].duration as real;
      }
    }
  }

  /** `CustomLoadShape.tick`. */
  function Tick(runTime: real): Option<Target>
  {
    FirstMatch(Stages, runTime)
  }

  /** Scanning a concatenation scans the second list only if the first has no match. */
  lemma {:induction false} FirstMatchAppend(a: seq<Stage>, b: seq<Stage>, runTime: real)
    ensures FirstMatch(a + b, runTime) ==
      if FirstMatch(a, runTime).Some? then FirstMatch(a, runTime) else FirstMatch(b, runTime)
  {
    if |a| > 0 {
      assert (a + b)[1..] == a[1..] + b;
      FirstMatchAppend(a[1..], b, runTime);
    } else {
      assert a + b == b;
    }
  }

  /**
   * Repeating the list changes nothing: durations are absolute end times,
   * so any later copy matches only when the first copy already did.
   */
  lemma {:induction false} RepeatHasNoEffect(base: seq<Stage>, n: nat, runTime: real)
    requires 1 <= n
    ensures FirstMatch(Repeat(base, n), runTime) == FirstMatch(base, runTime)
  {
    var rest := Repeat(base, n - 1);
    assert Repeat(base, n) == base + rest;
    FirstMatchAppend(base, rest, runTime);
    if FirstMatch(base, runTime).None? {
      if n == 1 {
        assert rest == [];
      } else {
        RepeatHasNoEffect(base, n - 1, runTime);
      }
    }
  }

  /**
   * The effective schedule: 200 users for the first minute, none until
   * 300 s, then the test ends; stages 2 to 9 are never selected.
   */
  lemma TickSchedule(runTime: real)
    ensures runTime < 60.0 ==> Tick(runTime) == Some(Target(200, 10.0))
    ensures 60.0 <= runTime < 300.0 ==> Tick(runTime) == Some(Target(0, 0.0))
    ensures 300.0 <= runTime ==> Tick(runTime).None?
  {
    RepeatHasNoEffect(BaseStages, 5, runTime);
    var b := BaseStages;
    assert b[0] == Stage(60, 200, 10) && b[1..] == [Stage(300, 0, 0)] && b[1..][1..] == [];
    if 300.0 <= runTime {
      assert FirstMatch(b[1..][1..], runTime) == None;
      assert FirstMatch(b[1..], runTime) == None;
    }
  }

  /** `stages` has ten entries, alternating the load stage and the rest stage. */
  lemma StagesLayout()
    ensures |Stages| == 10
    ensures forall i :: 0 <= i < 10 ==>
      Stages[i] == if i % 2 == 0 then Stage(60, 200, 10) else Stage(300, 0, 0)
  {
    var b := BaseStages;
    assert Repeat(b, 1) == b + [];
    assert Repeat(b, 2) == b + b;
    assert Repeat(b, 3) == b + (b + b);
    assert Repeat(b, 4) == b + (b + (b + b));
    assert Stages == b + (b + (b + (b + b)));
  }
}
