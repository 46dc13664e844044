/**
 * The naming helpers of `estimator/monitoring.py`: the log prefix of a
 * monitor, the Envoy cluster name of a service and the cAdvisor label
 * pattern of a Swarm service.
 */
module MonitorNames {

  /** Upper-casing one character; only the ASCII letters `a` to `z` are mapped. */
  function UpperChar(c: char): (u: char)
    ensures !('a' <= u <= 'z')
    ensures 'A' <= c <= 'Z' || !('a' <= c <= 'z') ==> u == c
    ensures 'a' <= c <= 'z' ==> u as int == c as int - 32
  {
    if 'a' <= c <= 'z' then (c as int - 32) as char else c
  }

  /** `str.upper` on ASCII text: every lower-case ASCII letter replaced by its capital. */
  function Upper(s: string): (r: string)
    ensures |r| == |s|
    ensures forall i :: 0 <= i < |s| ==> r[i] == UpperChar(s[i])
  {
    if |s| == 0 then "" else Upper(s[..|s| - 1]) + [UpperChar(s[|s| - 1])]
  }

  /** Upper-casing twice is upper-casing once. */
  lemma UpperIdempotent(s: string)
    ensures Upper(Upper(s)) == Upper(s)
  {
  }

  /** `_get_service_prefix`: `[SERVICE]`, else `[stack]`, else `[MONITOR]`. */
  function ServicePrefix(serviceName: string, stackName: string): (r: string)
    ensures 2 <= |r| && r[0] == '[' && r[|r| - 1] == ']'
    ensures serviceName != "" ==> r[1..|r| - 1] == Upper(serviceName)
    ensures serviceName == "" && stackName != "" ==> r[1..|r| - 1] == stackName
    ensures serviceName == "" && stackName == "" ==> r == "[MONITOR]"
  {
    if serviceName != "" then "[" + Upper(serviceName) + "]"
    else if stackName != "" then "[" + stackName + "]"
    else "[MONITOR]"
  }

  /** `str.replace('-', '_')`. */
  function ReplaceDashes(s: string): (r: string)
    ensures |r| == |s|
    ensures forall i :: 0 <= i < |s| ==> r[i] == if s[i] == '-' then '_' else s[i]
  {
    if |s| == 0 then "" else ReplaceDashes(s[..|s| - 1]) + [if s[|s| - 1] == '-' then '_' else s[|s| - 1]]
  }

  /** `_get_cluster_name`: the service name with `_` for every `-`, then `_cluster`. */
  function ClusterName(serviceName: string): (r: string)
    ensures |r| == |serviceName| + 8
    ensures r[|serviceName|..] == "_cluster"
    ensures '-' !in r
    ensures forall i :: 0 <= i < |serviceName| && serviceName[i] != '-' ==> r[i] == serviceName[i]
    ensures forall i :: 0 <= i < |serviceName| && serviceName[i] == '-' ==> r[i] == '_'
  {
    var base := ReplaceDashes(serviceName);
    var r := base + "_cluster";
    assert forall i :: 0 <= i < |base| ==> r[i] == base[i];
    r
  }

  /** A name without dashes is kept as it is. */
  lemma ClusterNameOfPlainName(serviceName: string)
    requires '-' !in serviceName
    ensures ClusterName(serviceName) == serviceName + "_cluster"
  {
    assert ReplaceDashes(serviceName) == serviceName;
  }

  /** The two names the Envoy monitoring test checks. */
  lemma ClusterNameExamples()
    ensures ClusterName("ms-exercise") == "ms_exercise_cluster"
    ensures ClusterName("gateway") == "gateway_cluster"
  {
    assert ReplaceDashes("ms-exercise") == "ms_exercise";
    assert "ms_exercise" + "_cluster" == "ms_exercise_cluster";
    ClusterNameOfPlainName("gateway");
  }

  /** `_get_service_label_regex`: stack, `_`, service, then any suffix (`.*`). */
  function ServiceLabelRegex(stackName: string, serviceName: string): (r: string)
    ensures |r| == |stackName| + |serviceName| + 3
    ensures r[..|stackName|] == stackName && r[|stackName|] == '_'
    ensures r[|stackName| + 1..|r| - 2] == serviceName && r[|r| - 2..] == ".*"
  {
    stackName + "_" + serviceName + ".*"
  }

  /** The pattern the Envoy monitoring test checks. */
  lemma ServiceLabelRegexExample()
    ensures ServiceLabelRegex("ms-stack-v5", "ms-exercise") == "ms-stack-v5_ms-exercise.*"
  {
  }
}
