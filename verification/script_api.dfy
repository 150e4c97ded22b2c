/** Rule-script resource records and the string codecs of their enums
    (controller/common/src/api/script.rs). */
module ScriptApi {
  import opened Base

  /** Kind of rule script; the discriminants are fixed by `#[repr(i8)]`. */
  datatype ScriptType = Wasm | Js | Native | Standalone

  /** Quality of service of a device commit. */
  datatype QosPolicy = OnlyOnce | AtMostOnce | AtLeastOnce

  const ALL_SCRIPT_TYPES: seq<ScriptType> := [Wasm, Js, Native, Standalone]
  const ALL_QOS: seq<QosPolicy> := [OnlyOnce, AtMostOnce, AtLeastOnce]

  /** `script_type as i32`. */
  function ScriptTypeCode(t: ScriptType): (n: int)
    ensures 0 <= n < 4 && ALL_SCRIPT_TYPES[n] == t
  {
    match t
    case Wasm => 0
    case Js => 1
    case Native => 2
    case Standalone => 3
  }

  /** `qos as i32`. */
  function QosCode(q: QosPolicy): (n: int)
    ensures 0 <= n < 3 && ALL_QOS[n] == q
  {
    match q
    case OnlyOnce => 0
    case AtMostOnce => 1
    case AtLeastOnce => 2
  }

  /** Decoding a QoS number: the codes 0..2 and nothing else. */
  function QosFromCode(n: int): (r: Option<QosPolicy>)
    ensures r.Some? <==> 0 <= n < 3
    ensures r.Some? ==> QosCode(r.value) == n
  {
    if 0 <= n < 3 then Some(ALL_QOS[n]) else None
  }

  /** The discriminants are distinct, so `as i32` loses nothing. */
  lemma CodesInjective(a: ScriptType, b: ScriptType, p: QosPolicy, q: QosPolicy)
    ensures ScriptTypeCode(a) == ScriptTypeCode(b) ==> a == b
    ensures QosCode(p) == QosCode(q) ==> p == q
    ensures QosFromCode(QosCode(p)) == Some(p)
  {
  }

  /** `Display for ScriptType`. */
  function ScriptTypeToString(t: ScriptType): string {
    match t
    case Js => "js"
    case Wasm => "wasm"
    case Native => "so"
    case Standalone => "exe"
  }

  /** `FromStr for ScriptType`: exactly the four display strings. */
  function ScriptTypeFromStr(s: string): (r: Result<ScriptType, string>)
    ensures r.Ok? <==> s in {"js", "wasm", "so", "exe"}
    ensures r.Err? ==> r.error == "Unknown rule script"
    ensures r.Ok? ==> ScriptTypeToString(r.value) == s
  {
    match s
    case "js" => Ok(Js)
    case "wasm" => Ok(Wasm)
    case "so" => Ok(Native)
    case "exe" => Ok(Standalone)
    case _ => Err("Unknown rule script")
  }

  /** Display and parse are inverse: every variant round-trips, the four
      strings are distinct, and a string parses only if it is one of them. */
  lemma ScriptTypeRoundTrip(t: ScriptType, u: ScriptType, s: string)
    ensures ScriptTypeFromStr(ScriptTypeToString(t)) == Ok(t)
    ensures ScriptTypeToString(t) == ScriptTypeToString(u) ==> t == u
    ensures ScriptTypeFromStr(s).Ok? ==> s == ScriptTypeToString(ScriptTypeFromStr(s).value)
    ensures ScriptTypeFromStr("Js").Err?
  {
  }

  /** `DeviceSelectorSet`: optional maps from script-side names to resources. */
  datatype DeviceSelectorSet = DeviceSelectorSet(matchNames: Option<map<string, string>>,
                                                 matchAbilities: Option<map<string, string>>)

  /** `Manifest`: which package to run and where to fetch it. */
  datatype Manifest = Manifest(scriptType: ScriptType, name: string, version: string, register: Option<string>)

  /** `Policy`: when to run and the default commit QoS. */
  datatype Policy = Policy(readChange: bool, webhook: bool, cron: string, qos: QosPolicy)

  /** `ScriptStatus`: last run (unix ms, i64), elapsed time (us, u32), code, message. */
  datatype ScriptStatus = ScriptStatus(lastRun: int, elapsedTime: u32, status: int, message: string)

  datatype ScriptSpec = ScriptSpec(readSelector: DeviceSelectorSet, writeSelector: DeviceSelectorSet,
                                   env: map<string, string>, manifest: Manifest, executePolicy: Policy)

  datatype Script = Script(spec: ScriptSpec, status: Option<ScriptStatus>)
}
