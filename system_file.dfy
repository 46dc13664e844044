/**
 * `Monitoring.getCores`: the CPU limit of the `node` service, read from
 * the parsed stack file at `services.node.deploy.resources.limits.cpus`.
 * Reading the file itself is not part of this model; the document is given
 * already parsed.
 */
module SystemFile {
  import opened Wrappers
  import opened Queries

  /**
   * A parsed YAML node.  A scalar string is represented by what Python's
   * `float()` makes of it (`None` when it raises `ValueError`); `YOther`
   * stands for null and sequences.
   */
  datatype Yaml =
    | YMap(entries: map<string, Yaml>)
    | YNumber(x: real)
    | YText(asFloat: Option<real>)
    | YOther

  /** The keys walked with `.get(key, {})` before the final `.get("cpus", "0")`. */
  const LimitsPath: seq<string> := ["services", "node", "deploy", "resources", "limits"]

  /** `node.get(key, default)`; only a mapping has `.get`. */
  function Get(node: Yaml, key: string, default: Yaml): (r: Result<Yaml, Failure>)
    ensures r.Err? <==> !node.YMap?
    ensures node.YMap? && key !in node.entries ==> r == Ok(default)
    ensures node.YMap? && key in node.entries ==> r == Ok(node.entries[key])
  {
    match node
    case YMap(m) => Ok(if key in m then m[key] else default)
    case _ => Err(NotAMapping)
  }

  /** The chain of `.get(key, {})` calls along `path`; only a non-mapping on the way raises. */
  function Walk(node: Yaml, path: seq<string>): (r: Result<Yaml, Failure>)
    ensures |path| == 0 ==> r == Ok(node)
    ensures r.Err? ==> r == Err(NotAMapping)
    decreases |path|
  {
    if |path| == 0 then Ok(node)
    else match Get(node, path[0], YMap(map[]))
      case Err(e) => Err(e)
      case Ok(child) => Walk(child, path[1..])
  }

  /** `float(v)`, with `ValueError` turned into 0.0 as `getCores` does. */
  function ToFloat(v: Yaml): (r: Result<real, Failure>)
    ensures r.Err? <==> v.YMap? || v.YOther?
    ensures v.YNumber? ==> r == Ok(v.x)
    ensures v.YText? && v.asFloat.Some? ==> r == Ok(v.asFloat.value)
    ensures v == YText(None) ==> r == Ok(0.0)
  {
    match v
    case YNumber(x) => Ok(x)
    case YText(parsed) => Ok(match parsed case Some(x) => x case None => 0.0)
    case _ => Err(NotANumber)
  }

  /** `getCores`. */
  function GetCores(sys: Yaml): Result<real, Failure>
  {
    match Walk(sys, LimitsPath)
    case Err(e) => Err(e)
    case Ok(limits) =>
      match Get(limits, "cpus", YText(Some(0.0)))
      case Err(e) => Err(e)
      case Ok(cpus) => ToFloat(cpus)
  }

  /** A document holding only `leaf` under the keys of `path`. */
  function Nest(path: seq<string>, leaf: Yaml): Yaml
    decreases |path|
  {
    if |path| == 0 then leaf else YMap(map[path[0] := Nest(path[1..], leaf)])
  }

  /** Walking the keys a document was nested under finds the leaf again. */
  lemma {:induction false} WalkNest(path: seq<string>, leaf: Yaml)
    ensures Walk(Nest(path, leaf), path) == Ok(leaf)
  {
    if |path| > 0 {
      WalkNest(path[1..], leaf);
    }
  }

  /** Once a key is missing, every later `.get` starts from `{}` and ends with `{}`. */
  lemma {:induction false} WalkEmpty(path: seq<string>)
    ensures Walk(YMap(map[]), path) == Ok(YMap(map[]))
  {
    if |path| > 0 {
      WalkEmpty(path[1..]);
    }
  }

  /** Walking `path` is walking its first `k` keys, then the rest from where that ended. */
  lemma {:induction false} WalkSplit(node: Yaml, path: seq<string>, k: nat)
    requires k <= |path|
    ensures Walk(node, path) ==
      match Walk(node, path[..k])
      case Err(e) => Err(e)
      case Ok(n) => Walk(n, path[k..])
    decreases k
  {
    if k > 0 {
      match Get(node, path[0], YMap(map[]))
      case Err(_) =>
      case Ok(child) =>
        WalkSplit(child, path[1..], k - 1);
        assert path[..k][1..] == path[1..][..k - 1];
        assert path[1..][k - 1..] == path[k..];
    }
  }

  /** A walk that meets a mapping without the next key ends at `{}`, whatever else the document holds. */
  lemma WalkMissing(sys: Yaml, path: seq<string>, k: nat, m: map<string, Yaml>)
    requires k < |path| && Walk(sys, path[..k]) == Ok(YMap(m)) && path[k] !in m
    ensures Walk(sys, path) == Ok(YMap(map[]))
  {
    WalkSplit(sys, path, k);
    assert path[k..][1..] == path[k + 1..];
    WalkEmpty(path[k + 1..]);
  }

  /**
   * `getCores` of any document whose walk reaches the `limits` mapping `m`:
   * no `cpus` gives the default "0", a number is read as it is, and a string
   * as `float()` reads it, 0.0 when that fails.
   */
  lemma GetCoresOfAnyDoc(sys: Yaml, m: map<string, Yaml>)
    requires Walk(sys, LimitsPath) == Ok(YMap(m))
    ensures "cpus" !in m ==> GetCores(sys) == Ok(0.0)
    ensures "cpus" in m && m["cpus"].YNumber? ==> GetCores(sys) == Ok(m["cpus"].x)
    ensures "cpus" in m && m["cpus"].YText? ==>
      GetCores(sys) == Ok(match m["cpus"].asFloat case Some(x) => x case None => 0.0)
  {
  }

  /** A key missing anywhere along the path gives the default "0", that is 0.0, in any document. */
  lemma GetCoresMissingKey(sys: Yaml, k: nat, m: map<string, Yaml>)
    requires k < |LimitsPath| && Walk(sys, LimitsPath[..k]) == Ok(YMap(m)) && LimitsPath[k] !in m
    ensures GetCores(sys) == Ok(0.0)
  {
    WalkMissing(sys, LimitsPath, k, m);
  }

  /** A file with sibling keys on the way and a quoted limit `cpus: '0.5'` is read as 0.5. */
  lemma GetCoresOfStackFile()
    ensures GetCores(
      YMap(map[
        "version" := YText(Some(3.0)),
        "services" := YMap(map[
          "db" := YOther,
          "node" := YMap(map[
            "image" := YText(None),
            "deploy" := YMap(map[
              "replicas" := YNumber(1.0),
              "resources" := YMap(map[
                "limits" := YMap(map["cpus" := YText(Some(0.5)), "memory" := YText(None)]),
                "reservations" := YOther])])])])])) == Ok(0.5)
  {
  }

  /** A document that is not a mapping at the top makes `getCores` raise. */
  lemma GetCoresNotAMapping(sys: Yaml)
    requires !sys.YMap?
    ensures GetCores(sys) == Err(NotAMapping)
  {
  }
}
