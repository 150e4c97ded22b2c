/** The SQLite flavour of the script records (controller/common/src/api/script_sqlite3.rs):
    the same enums, but the parsers differ. */
module ScriptSqlite3 {
  import opened Base
  import opened ScriptApi

  /** `FromStr for ScriptType` of the SQLite records: also accepts "Js". */
  function ScriptTypeFromStr(s: string): (r: Result<ScriptType, string>)
    ensures r.Ok? <==> s in {"js", "Js", "wasm", "so", "exe"}
    ensures r.Err? ==> r.error == "Unknown script type"
    ensures r.Ok? && s != "Js" ==> ScriptTypeToString(r.value) == s
    ensures s == "Js" ==> r == Ok(Js)
  {
    match s
    case "js" => Ok(Js)
    case "Js" => Ok(Js)
    case "wasm" => Ok(Wasm)
    case "so" => Ok(Native)
    case "exe" => Ok(Standalone)
    case _ => Err("Unknown script type")
  }

  /** The extra spelling does not break the round trip, and it is the only
      string this parser accepts beyond the strict one. */
  lemma SqliteScriptTypeRoundTrip(t: ScriptType, s: string)
    ensures ScriptTypeFromStr(ScriptTypeToString(t)) == Ok(t)
    ensures s != "Js" ==> (ScriptTypeFromStr(s).Ok? <==> ScriptApi.ScriptTypeFromStr(s).Ok?)
    ensures ScriptApi.ScriptTypeFromStr(s).Ok? ==> ScriptTypeFromStr(s).value == ScriptApi.ScriptTypeFromStr(s).value
    ensures ScriptTypeFromStr("JS").Err? && ScriptTypeFromStr("Wasm").Err?
  {
  }

  /** `FromStr for QosPolicy`: exactly the three variant names. */
  function QosFromStr(s: string): (r: Result<QosPolicy, string>)
    ensures r.Ok? <==> s in {"OnlyOnce", "AtMostOnce", "AtLeastOnce"}
    ensures r.Err? ==> r.error == "Unknown QoS policy"
    ensures r == Ok(OnlyOnce) <==> s == "OnlyOnce"
    ensures r == Ok(AtMostOnce) <==> s == "AtMostOnce"
    ensures r == Ok(AtLeastOnce) <==> s == "AtLeastOnce"
  {
    match s
    case "OnlyOnce" => Ok(OnlyOnce)
    case "AtMostOnce" => Ok(AtMostOnce)
    case "AtLeastOnce" => Ok(AtLeastOnce)
    case _ => Err("Unknown QoS policy")
  }

  /** A policy's variant name, as serde and `Debug` write it. */
  function QosName(q: QosPolicy): string {
    match q
    case OnlyOnce => "OnlyOnce"
    case AtMostOnce => "AtMostOnce"
    case AtLeastOnce => "AtLeastOnce"
  }

  /** The parser inverts the variant names: a policy's name parses back to
      it, and whatever parses is the name of what it parsed to. */
  lemma QosFromStrRoundTrip(q: QosPolicy, s: string)
    ensures QosFromStr(QosName(q)) == Ok(q)
    ensures QosFromStr(s).Ok? ==> QosName(QosFromStr(s).value) == s
  {
  }
}
