# SoY-locust core, modelled in Dafny

This project models the parts of the SoY-locust load-testing harness that
can be checked. There are three groups.

- **The `Monitoring` object** of `estimator/monitoring.py`. It keeps twelve
  per-tick history lists. `tick` appends one reading per list, in a fixed
  order, and a raising getter ends the tick without rolling anything back.
  `reset` empties the lists. `save_to_csv` cuts ten of them to the shortest
  length. `predict_users` extrapolates the active-user gauge over its last
  five valid samples. The module also has naming helpers (log prefix, Envoy
  cluster name, cAdvisor label pattern), `getCores` over the parsed stack
  file, and the result checks every metric getter makes on its Prometheus
  answer.
- **The Locust load shapes**: the five `tick` schedules of
  `locust_file/load_shapes.py`, the same five under `locust_file/loadshapes/`,
  the cyclical copy in `locust_file/SoyMonoShorterIfLogin_x1.py`,
  `get_shape_class`, and the staged shape of `SoyMonoShorterIfLogin.py`.
- **Two formulas**: `get_cpu_delta` of `getSystemUtil.py` and
  `calculate_rac` of `scripts/rac_calculator.py`.

## Modules

- `wrappers.dfy` (`Wrappers`): `Option` and `Result`.
- `py_num.dfy` (`PyNum`): Python's `int()` on a float, which truncates toward
  zero, and `%` on floats, stated over exact reals.
- `load_shapes.dfy` (`LoadShapes`): the five shapes and `get_shape_class`.
  The classes of `locust_file/load_shapes.py` and the `CustomLoadShape`
  classes of `locust_file/loadshapes/*.py` share constants and branches
  shape by shape. The `CustomLoadShape` of
  `locust_file/SoyMonoShorterIfLogin_x1.py` is the cyclical shape again. So
  each shape is one function here, and its rows below cite every file it
  stands for.
- `stage_shape.dfy` (`StageShape`): the `stages` list and its first-match
  `tick`.
- `system_util.dfy` (`SystemUtil`): `get_cpu_delta`.
- `rac_calculator.dfy` (`RacCalculator`): `calculate_rac` after the CSV has
  been read.
- `monitor_names.dfy` (`MonitorNames`): `_get_service_prefix`,
  `_get_cluster_name` and `_get_service_label_regex`.
- `queries.dfy` (`Queries`): the checks each metric getter makes on its
  query result.
- `system_file.dfy` (`SystemFile`): `getCores` over a parsed YAML document.
- `history.dfy` (`History`): the twelve lists as one value. It holds
  `Ticked`, the effect of one `tick`, and the `save_to_csv` table.
- `prediction.dfy` (`Prediction`): `predict_users` as a function.
- `monitor.dfy` (`Monitoring`): the `Monitor` class. Its methods change
  its state and are proved against the `History` and `Prediction`
  functions.

`tick` receives the Prometheus answers of its eight queries as an
`Answers` value. `Read` applies each getter to its own answer. `Ticked`
then appends `time` and the readings in the order of
`estimator/monitoring.py:64-78`, and stops at the first getter that raises.

### Partial ticks

One might expect every per-tick list to stay equally long, with a tick
that cannot be completed skipped whole. The code does not do this: `tick`
appends each reading as soon as its getter returns, and `save_to_csv`
cuts the lists to the shortest before writing
(`estimator/monitoring.py:178-179`), which is needed only because they can
differ in length. A getter that raises leaves `time` and the lists before
it one entry longer than the rest. This model follows the code:

- `History.RaisedBreaksAlignment` shows that the lists stop being aligned
  after such a tick.
- `History.PartialTickShiftsRows` shows that `save_to_csv` then puts
  readings of two different ticks in one row.
- `Monitoring.RaisedTickShiftsPrediction` shows that `predict_users` pairs
  a later tick's active users with an earlier tick's time.

What a history built by `reset` and `tick` keeps is the staircase order:
a list appended to earlier is never shorter than one appended to later.

## Model

| member | source | states |
|---|---|---|
| PyNum.Int | locust_file/loadshapes/step_shape.py:20 | `int()` of a float: the floor for non-negative values, the ceiling for negative ones |
| PyNum.FloatMod | locust_file/loadshapes/cyclical_shape.py:22 | `x % m` for `m > 0` lies in `[0, m)` and differs from `x` by a whole multiple of `m` |
| PyNum.FloatModShift | locust_file/loadshapes/cyclical_shape.py:22 | `(x + m) % m == x % m` |
| LoadShapes.CycleTime | locust_file/load_shapes.py:22 | the position in the cycle lies in `[0, 360)` |
| LoadShapes.CyclicalTick | locust_file/load_shapes.py:17-37 | `None` exactly when `run_time > 1440`; otherwise users lie in `[0, 100]`; `loadshapes/cyclical_shape.py:17-37` and the `x1` shape have the same constants and branches, so all three agree at every run time |
| LoadShapes.RampUsers | locust_file/loadshapes/cyclical_shape.py:26 | ramp users are `floor(ct / 60 * 100)`, between 0 and 99 |
| LoadShapes.CyclicalPhases | locust_file/SoyMonoShorterIfLogin_x1.py:105-120 | with `ct = run_time % 360`: `ct < 60` gives `(floor(ct/60*100), 100/60)`; `60 <= ct < 120` gives `(100, 1)`; otherwise `(1, 1)` (the same phases as `cyclical_shape.py:22-37`) |
| LoadShapes.CyclicalPeriodic | locust_file/loadshapes/cyclical_shape.py:32-35 | the pause phase keeps one user, so `tick(r + 360) == tick(r)` while both are at most 1440 |
| LoadShapes.StepLevel | locust_file/loadshapes/step_shape.py:22-28 | for every step `k >= 0`, users lie in `[1, 100]` |
| LoadShapes.CurrentStep | locust_file/loadshapes/step_shape.py:20 | from 0 s on, the step index `k` is the one with `60k <= run_time < 60(k+1)` (the same as `load_shapes.py:56`) |
| LoadShapes.StepTick | locust_file/load_shapes.py:51-66 | `None` exactly when `run_time > 600`; spawn rate always 20; users in `[1, 100]` for `run_time >= 0` (the same schedule as `step_shape.py:15-30`) |
| LoadShapes.StepPhases | locust_file/loadshapes/step_shape.py:20-28 | with `k = floor(run_time/60)`: `min(100, 20(k+1))` for `k < 5`, `max(1, 100 - 20(k-5))` after |
| LoadShapes.StepRising | locust_file/loadshapes/step_shape.py:22-24 | users never decrease during the first 300 s |
| LoadShapes.StepFalling | locust_file/loadshapes/step_shape.py:25-28 | users never increase from 300 s to 600 s |
| LoadShapes.StepLastTick | locust_file/loadshapes/step_shape.py:17-28 | `run_time = 600` still ticks, with one user |
| LoadShapes.ConstantTick | locust_file/loadshapes/constant_shape.py:10-15 | `None` exactly when `run_time > 300` (so 300 itself still ticks); otherwise always `(50, 10)`, whatever the run time (the same schedule as `load_shapes.py:75-80`) |
| LoadShapes.RampUpTick | locust_file/loadshapes/rampup_shape.py:10-18 | `None` exactly when `run_time > 300`; spawn rate `100/300`; users in `[0, 100]` for `run_time >= 0` |
| LoadShapes.RampUpFormula | locust_file/loadshapes/rampup_shape.py:15-16 | inside the window, users are `floor(run_time/300*100)` |
| LoadShapes.RampUpMonotone | locust_file/load_shapes.py:94 | users never decrease with run time |
| LoadShapes.RampUpStartsEmpty | locust_file/loadshapes/rampup_shape.py:15 | no floor of one: zero users at 0 s, 100 users at 300 s |
| LoadShapes.PeakTick | locust_file/loadshapes/peak_shape.py:14-33 | `None` exactly when `run_time > 300`; users are at least 1 and, for `run_time >= 0`, at most 100 (the same schedule as `load_shapes.py:110-129`) |
| LoadShapes.PeakRamps | locust_file/loadshapes/peak_shape.py:19-31 | ramp up `max(1, floor(r/120*100))` and ramp down `max(1, floor(100(1 - (r-180)/120)))`, both at `100/120` per second |
| LoadShapes.PeakHoldPhase | locust_file/loadshapes/peak_shape.py:23-26 | `120 <= run_time < 180` gives `(100, 1)` |
| LoadShapes.PeakRising | locust_file/load_shapes.py:115-122 | users never decrease up to the end of the peak |
| LoadShapes.PeakFalling | locust_file/load_shapes.py:119-127 | users never increase from the peak to the end |
| LoadShapes.GetShapeClass | locust_file/load_shapes.py:140-146 | succeeds exactly for the five registered names and returns the shape registered under that name; any other name is the `ValueError` case |
| LoadShapes.ShapeName | locust_file/load_shapes.py:132-138 | the key of each shape in `shape_classes`; stated by `LoadShapes.ShapeNameRoundTrip` |
| LoadShapes.TickOf | locust_file/load_shapes.py:132-138 | the `tick` of the class registered for each shape; stated by `LoadShapes.EveryShapeStops` |
| LoadShapes.ShapeNameRoundTrip | locust_file/load_shapes.py:132-138 | every shape is found again under its own key |
| LoadShapes.EveryShapeStops | locust_file/load_shapes.py:19-20 | after 1440 s every registered shape has ended the test |
| StageShape.Repeat | SoyMonoShorterIfLogin.py:67 | list repetition `s * n` has `n` times the length |
| StageShape.StagesLayout | SoyMonoShorterIfLogin.py:64-67 | `stages` has ten entries alternating `(60, 200, 10)` and `(300, 0, 0)` |
| StageShape.FirstMatch | SoyMonoShorterIfLogin.py:72-76 | the target of the first stage whose duration is not yet reached; stated by `StageShape.FirstMatchIsFirst` |
| StageShape.Tick | SoyMonoShorterIfLogin.py:69-76 | the first match over `stages`; stated by `StageShape.TickSchedule` |
| StageShape.FirstMatchIsFirst | SoyMonoShorterIfLogin.py:72-76 | `None` exactly when every stage has ended; otherwise the target of the first stage that has not |
| StageShape.FirstMatchAppend | SoyMonoShorterIfLogin.py:72-74 | scanning `a + b` scans `b` only if `a` has no match |
| StageShape.RepeatHasNoEffect | SoyMonoShorterIfLogin.py:64-67 | durations are absolute, so `* 5` changes nothing about the tick |
| StageShape.TickSchedule | SoyMonoShorterIfLogin.py:69-76 | `(200, 10)` before 60 s, `(0, 0)` before 300 s, then `None`; stages 2 to 9 are never selected |
| SystemUtil.CpuDelta | getSystemUtil.py:11-19 | never negative; 0.0 unless both deltas are positive; otherwise `cpu/system * num_cpus * 100` |
| SystemUtil.CpuDeltaPositive | getSystemUtil.py:16-18 | positive exactly when both deltas are positive and `percpu_usage` is absent or non-empty (an empty list counts zero CPUs) |
| SystemUtil.CpuDeltaSingleCpu | getSystemUtil.py:17-18 | without `percpu_usage` the result is a share of host time, in `(0, 100]` when the container used no more time than the host |
| SystemUtil.NumCpus | getSystemUtil.py:17 | `len(percpu_usage)`, or 1 when the key is missing |
| SystemUtil.CpuDeltaOf | getSystemUtil.py:13 | the container's `total_usage` now minus before |
| SystemUtil.SystemDeltaOf | getSystemUtil.py:14 | the host's `system_cpu_usage` now minus before |
| RacCalculator.WithoutLast | scripts/rac_calculator.py:9 | `iloc[:-1]` keeps every row but the last, in order |
| RacCalculator.RequestSum | scripts/rac_calculator.py:11 | the sum of the "Request Count" column; stated by `RacCalculator.SumsAppend` |
| RacCalculator.FailureSum | scripts/rac_calculator.py:12 | the sum of the "Failure Count" column; stated by `RacCalculator.SumsAppend` |
| RacCalculator.CalculateRac | scripts/rac_calculator.py:6-15 | `ok * total` and `ko * total` are the request and failure sums over every row but the last; both are non-negative |
| RacCalculator.SumsAppend | scripts/rac_calculator.py:11-12 | the column sums split over concatenation |
| RacCalculator.AggregateRowIgnored | scripts/rac_calculator.py:9 | the last row has no influence on the result |
| RacCalculator.EmptyTableScoresZero | scripts/rac_calculator.py:9-14 | a table of at most one row gives `(0, 0)` |
| RacCalculator.AddEndpointRow | scripts/rac_calculator.py:11-14 | one more endpoint row adds its own counts, divided by the total, to each ratio |
| RacCalculator.ReportedRac | scripts/rac_calculator.py:29 | the printed RAC, `rac_ok + rac_ko`, is never negative |
| RacCalculator.ReportedRacCountsAll | scripts/rac_calculator.py:29 | the reported RAC `ok + ko` times the total is every request counted, accepted or failed |
| MonitorNames.UpperChar | estimator/monitoring.py:15 | the model maps exactly the lower-case ASCII letters, each to its capital, and leaves every other character alone |
| MonitorNames.Upper | estimator/monitoring.py:15 | on ASCII text, the upper-cased name has the same length and each character upper-cased |
| MonitorNames.UpperIdempotent | estimator/monitoring.py:15 | upper-casing twice is upper-casing once |
| MonitorNames.ServicePrefix | estimator/monitoring.py:12-19 | `[` + upper-cased service + `]` if the service is set, else `[` + stack + `]`, else `[MONITOR]` |
| MonitorNames.ReplaceDashes | estimator/monitoring.py:58 | every `-` becomes `_`, every other character stays |
| MonitorNames.ClusterName | estimator/monitoring.py:56-58 | the service name with each `-` turned into `_` and every other character kept, followed by `_cluster` |
| MonitorNames.ClusterNameOfPlainName | estimator/monitoring.py:58 | a name without dashes is kept as it is |
| MonitorNames.ClusterNameExamples | test_envoy_monitoring.py:33-34 | `ms-exercise` gives `ms_exercise_cluster`, `gateway` gives `gateway_cluster` |
| MonitorNames.ServiceLabelRegex | estimator/monitoring.py:60-62 | the stack, `_`, the service, then `.*` |
| MonitorNames.ServiceLabelRegexExample | test_envoy_monitoring.py:38 | `ms-stack-v5` and `ms-exercise` give `ms-stack-v5_ms-exercise.*` |
| Queries.FirstValue | estimator/monitoring.py:329-335 | an empty answer is the no-data error, a first record without `value` the invalid-format error, otherwise its value |
| Queries.EnvoyRate | estimator/monitoring.py:260-340 | `get_incoming_rps` and `get_completed_rps`: a missing service name raises before the query; then the shared checks |
| Queries.ResponseTime | estimator/monitoring.py:342-387 | raises on a missing service, no data, bad format, or a value of 0 or less; succeeds exactly with a positive value |
| Queries.CpuUtilization | estimator/monitoring.py:217-258 | needs both the stack and the service name, then the shared checks |
| Queries.ActiveReplicas | estimator/monitoring.py:389-425 | raises exactly when the CPU check would; the count is the value truncated toward zero, for either sign; `get_replicas` and `get_ready_replicas` (lines 114-137) both return it |
| Queries.ActiveUsers | estimator/monitoring.py:202-215 | never raises: `None` exactly when the checks fail, otherwise the value |
| SystemFile.Get | estimator/monitoring.py:86-91 | `.get(key, default)` on a mapping gives the entry or the default; on anything else it raises |
| SystemFile.Walk | estimator/monitoring.py:86-90 | no keys leave the document as it is; the only way the chain of `.get` calls fails is a non-mapping on the path |
| SystemFile.GetCores | estimator/monitoring.py:84-95 | `getCores`, stated by the lemmas below over any document |
| SystemFile.ToFloat | estimator/monitoring.py:92-95 | a number gives itself, a numeric string its value and an unparsable string 0.0; a mapping or null raises |
| SystemFile.WalkNest | estimator/monitoring.py:86-90 | walking the keys a value was nested under finds it again |
| SystemFile.WalkEmpty | estimator/monitoring.py:86-90 | once a key is missing, every later `.get` yields `{}` |
| SystemFile.WalkSplit | estimator/monitoring.py:86-90 | walking a path is walking its first `k` keys and then the rest, in any document |
| SystemFile.WalkMissing | estimator/monitoring.py:86-90 | in any document, a walk that meets a mapping without the next key ends at `{}` |
| SystemFile.GetCoresOfAnyDoc | estimator/monitoring.py:84-95 | in any document whose `limits` mapping is reached: no `cpus` gives 0.0, a number is read as it is, a string as `float()` reads it or 0.0 |
| SystemFile.GetCoresMissingKey | estimator/monitoring.py:86-91 | in any document, a key missing anywhere on the path to `limits` gives the default, 0.0 |
| SystemFile.GetCoresOfStackFile | estimator/monitoring.py:84-95 | a stack file with sibling keys and a quoted `cpus: '0.5'` gives 0.5 |
| SystemFile.GetCoresNotAMapping | estimator/monitoring.py:86 | a document that is not a mapping makes `getCores` raise |
| History.StaircaseOrder | estimator/monitoring.py:64-78 | in staircase order a list appended to earlier is never shorter than one appended to later |
| History.Read | estimator/monitoring.py:64-78 | each getter applied to its own Prometheus answer, `getCores` to the stack file |
| History.Outcome | estimator/monitoring.py:64-78 | the first getter, in tick order, that raises, with its own error; stated by `History.OutcomeCompleted` and `History.OutcomeRaised` |
| History.Failed | estimator/monitoring.py:66-78 | the error each getter of the tick raised, if any; `time`, `users`, `active_users` and `memory` never raise |
| History.Little | estimator/monitoring.py:80-82 | Little's law, response time times throughput, the value `getUsers` returns |
| History.Ticked | estimator/monitoring.py:64-78 | `time` always grows by `t`, whichever getter raises; the other lists are stated by `History.TickedLengths` and `History.TickedValues` |
| History.TickedLengths | estimator/monitoring.py:64-78 | a tick appends exactly one element to each list it reaches before returning or raising, and leaves the others alone |
| History.TickedExtends | estimator/monitoring.py:64-78 | every list before a tick is a prefix of the same list after it |
| History.TickedValues | estimator/monitoring.py:64-78 | every tick, completed or not, appends to each list it reaches the value its getter returned (`t` to `time`, Little's law to `users`, the sample to `active_users`, 0 to `memory`) |
| History.TickedCompleted | estimator/monitoring.py:64-82 | a tick without a raise appends to every list: `t` to `time`, each getter's value to its list, 0 to `memory`, and the new `rts` times the new `tr` to `users` |
| History.OutcomeCompleted | estimator/monitoring.py:64-78 | a tick completes exactly when every getter returns; it can only stop at a list filled by a raising getter |
| History.OutcomeRaised | estimator/monitoring.py:64-78 | a tick raises at a list with an error exactly when that list's getter raised that error and every getter called before it returned |
| History.RejectedResponseTime | estimator/monitoring.py:379-380 | a response time of 0 or less: `time` grows, every other list stays unchanged |
| History.CompletedKeepsAligned | estimator/monitoring.py:64-78 | equally long lists stay equally long through a completed tick |
| History.RaisedBreaksAlignment | estimator/monitoring.py:64-78 | after a raising tick `time` is one longer than `envoy_completed_rps`, so the lists are no longer aligned |
| History.TickedKeepsStaircase | estimator/monitoring.py:64-78 | every tick, completed or not, keeps the staircase order |
| History.EmptyIsStaircase | estimator/monitoring.py:139-155 | the lists `reset` leaves are in staircase order |
| History.SavedLengths | estimator/monitoring.py:162-173 | the ten lengths logged, with `users` taken from `active_users` |
| History.MinOf | estimator/monitoring.py:179 | `min` returns an element no greater than any other |
| History.CsvColumns | estimator/monitoring.py:182-193 | all ten columns share the minimum length, each is a prefix of its list, and `users` is cut from `active_users` |
| History.CsvRows | estimator/monitoring.py:179 | `min_length`, the smallest of the ten saved lengths; stated by `History.CsvRowsIsShortest` and `History.CsvRowsIsSavedLength` |
| History.CsvRowsIsShortest | estimator/monitoring.py:179 | the row count is at most the length of every saved column; `time` and the Little's-law `users` do not count |
| History.CsvRowsIsSavedLength | estimator/monitoring.py:179 | the row count is the length of one of the saved columns |
| History.CsvRowsOfStaircase | estimator/monitoring.py:157-193 | a history built by `reset` and `tick` is saved with one row per tick that reached `envoy_completed_rps` |
| History.CsvRowsOfAligned | estimator/monitoring.py:157-193 | an aligned history is saved whole |
| History.PartialTickShiftsRows | estimator/monitoring.py:182-193 | after a tick that raised at the CPU reading and one that completed, row 0 holds the first tick's cores and the second tick's completed rate |
| Prediction.Pair | estimator/monitoring.py:439 | pairing keeps at most as many points as samples |
| Prediction.ValidPoints | estimator/monitoring.py:439 | `valid_data` has no more points than either list has samples |
| Prediction.PairAppend | estimator/monitoring.py:439 | pairing splits over concatenation |
| Prediction.PairSnoc | estimator/monitoring.py:439 | one more sample adds one point if its gauge is set, none otherwise |
| Prediction.PairNonNegative | estimator/monitoring.py:439 | every valid point carries a recorded gauge value |
| Prediction.ValidPointsOfEqualLengths | estimator/monitoring.py:439 | `zip` of equally long lists pairs them whole |
| Prediction.NoneSampleSkipped | estimator/monitoring.py:438-439 | a `None` sample changes nothing, as if never recorded |
| Prediction.GradientsSnoc | estimator/monitoring.py:453-458 | one more point adds its slope if time advanced, nothing otherwise |
| Prediction.Gradients | estimator/monitoring.py:453-458 | at most one slope per consecutive pair of points |
| Prediction.Predict | estimator/monitoring.py:427-474 | `predict_users` of the two lists; stated by the lemmas below |
| Prediction.PredictFrom | estimator/monitoring.py:441-448 | the last valid value or 0 below five points, otherwise the prediction from the last five |
| Prediction.PredictRecent | estimator/monitoring.py:450-474 | the prediction from the five recent points |
| Prediction.PredictFewSamples | estimator/monitoring.py:441-443 | fewer than five valid samples: the last valid value, or 0 |
| Prediction.PredictClamped | estimator/monitoring.py:472 | whenever a slope exists the prediction is clamped at 0 |
| Prediction.PredictWithoutSlope | estimator/monitoring.py:460-461 | with no advancing time step among the five, the last value is returned unclamped |
| Prediction.PredictNonNegative | estimator/monitoring.py:439-474 | a gauge that never reports a negative value never yields a negative prediction |
| Prediction.RecentPointsOnly | estimator/monitoring.py:448 | from five valid points on, only the last five matter |
| Prediction.OlderSamplesIgnored | estimator/monitoring.py:448 | samples before the last five valid ones play no part |
| Prediction.PredictExample | estimator/monitoring.py:464-472 | users 10, 12, 14, 16, 20 at times 0, 1, 2, 3, 5, one step ahead: 24, the last step (2) times the horizon, where the average step would give 22.5 |
| Monitoring.Monitor.constructor | estimator/monitoring.py:23-43 | identity and log prefix stored, lists empty, counters `None` |
| Monitoring.Monitor.Reset | estimator/monitoring.py:139-155 | every list empty, `last_requests` and `last_timestamp` set to `None`, staircase order holds |
| Monitoring.Monitor.GetUsers | estimator/monitoring.py:80-82 | Little's law on the last response time and throughput; `Monitoring.Monitor.Tick` and `History.TickedCompleted` state the value appended |
| Monitoring.Monitor.Tick | estimator/monitoring.py:64-78 | the new lists are `Ticked` of the old ones and the readings; the outcome is the first raising getter; staircase order is kept |
| Monitoring.Monitor.SaveToCsv | estimator/monitoring.py:157-193 | returns the truncated table and its row count, which is the number of ticks that reached the last list; the lists are not modified |
| Monitoring.Monitor.PredictUsers | estimator/monitoring.py:427-474 | returns `Predict` of the current `time` and `active_users` lists |
| Monitoring.RecentGradients | estimator/monitoring.py:453-458 | the loop collects exactly `Gradients` of the recent points |
| Monitoring.RaisedTickShiftsPrediction | estimator/monitoring.py:439 | after a tick that raised before `active_users` and one that completed, the only valid point pairs the first tick's time with the second tick's users |

## Left out

- Prometheus access (the `prom` property, `query_prometheus`, `custom_query`) is network I/O. Each getter receives its answer as a value, already parsed to a real.
- Parsing the sample string with `float()` is not modelled. A failure there becomes the getter's wrapped `RuntimeError` in the source, except in `get_active_users`, which catches it and returns `None`; here the value is already a number.
- Opening and parsing the stack file in `__init__` is file I/O, and so is the missing-file check. The constructor takes the document already parsed. `window`, `sla`, `reducer`, the Prometheus host and port and `has_health_check` are stored by `__init__` and read by nothing modelled, so they are not fields. The `remote` and `remote_docker_port` parameters are accepted and never stored.
- `save_to_csv`: the directory creation, the pandas write and the log lines are left out. `SaveToCsv` returns the table and its row count instead of writing them.
- Logging everywhere is left out. So are `__str__`, the Docker and subprocess parts of `getSystemUtil.py`, and the CSV reading and printing of `scripts/rac_calculator.py`.
- Floating point is modelled as exact reals. Python's `int()` is truncation toward zero and `%` is floor modulo; `memory` receives the integer 0 in the source and 0.0 here.
- Monitoring.Monitor.Tick: the twelve lists are one `History` field the method reassigns, rather than twelve list attributes. Aliasing of a list by outside code is not captured.
- MonitorNames.Upper: upper-cases ASCII letters only and keeps the length. Python's `str.upper` also maps non-ASCII letters ('é' to 'É') and can lengthen a string ('ß' to 'SS'). Docker Swarm service names are made of ASCII letters, digits, `_`, `.` and `-`, so the log prefix is the same for every name a service can have.
- MonitorNames.UpperChar: maps the ASCII letters `a` to `z` only, for the reason given for `MonitorNames.Upper`.
- SystemUtil.CpuDelta: `percpu_usage` is taken to be a list when present. A present value of another type, and the `KeyError` of a missing `cpu_stats` key, are not modelled.
- RacCalculator.CalculateRac: `theoretical_total` must be positive. The script only ever passes 420254.
