/** Device resource records with their display forms and their JSON shape
    (controller/common/src/api/device_sqlite3.rs). */
module DeviceApi {
  import opened Base

  /** The state of one device property: its value and free-form metadata. */
  datatype TwinProperty = TwinProperty(value: string, metadata: map<string, string>)

  /** A property's desired value and, once the device has answered, its reported value. */
  datatype Twin = Twin(propertyName: string, desired: TwinProperty, reported: Option<TwinProperty>)

  datatype DeviceStatus = DeviceStatus(twins: seq<Twin>)

  /** The parts of a device spec the model uses; `modelRef` is the optional
      name in `device_model_ref`. Protocol, visitors and data carry no fields. */
  datatype DeviceSpec = DeviceSpec(name: string, modelRef: Option<string>)

  datatype Device = Device(spec: DeviceSpec, status: Option<DeviceStatus>)

  /** `TwinProperty::new`. */
  function NewTwinProperty(value: string): (p: TwinProperty)
    ensures p.value == value && p.metadata == map[]
    ensures DisplayTwinProperty(p) == value
  {
    TwinProperty(value, map[])
  }

  /** `Display for TwinProperty`: the value alone, metadata never shown. */
  function DisplayTwinProperty(p: TwinProperty): string {
    p.value
  }

  /** `Display for Twin`. */
  function DisplayTwin(t: Twin): string {
    t.propertyName + ": " + DisplayTwinProperty(t.desired)
      + (if t.reported.Some? then " (reported: " + DisplayTwinProperty(t.reported.value) + ")" else "")
  }

  /** A twin displays as "<name>: <desired>", and the reported part appears iff
      there is a reported value: among twins with the same name and desired
      value, the display tells whether one was reported, and which value. */
  lemma TwinDisplayShowsReported(t: Twin, u: Twin)
    requires t.propertyName == u.propertyName && t.desired.value == u.desired.value
    ensures var head := t.propertyName + ": " + t.desired.value;
      && DisplayTwin(t)[..|head|] == head
      && (t.reported.None? <==> DisplayTwin(t) == head)
    ensures DisplayTwin(t) == DisplayTwin(u) ==>
      t.reported.Some? == u.reported.Some? && (t.reported.Some? ==> t.reported.value.value == u.reported.value.value)
  {
    var head := t.propertyName + ": " + t.desired.value;
    if DisplayTwin(t) == DisplayTwin(u) && t.reported.Some? && u.reported.Some? {
      var a := DisplayTwin(t);
      var b := DisplayTwin(u);
      var n := |head| + |" (reported: "|;
      assert a[n..|a| - 1] == t.reported.value.value;
      assert b[n..|b| - 1] == u.reported.value.value;
    }
  }

  /** `Display for DeviceSpec`: the first line names the model (empty when
      absent), the second shows the node selector; `nodeSelector` is its
      debug rendering. Both lines end in a newline. */
  function DisplayDeviceSpec(spec: DeviceSpec, nodeSelector: string): (s: string)
    ensures var head := "Model: " + spec.modelRef.GetOr("") + "\n";
      && |head| <= |s|
      && s[..|head|] == head
      && s[|head|..] == "Node selector: " + nodeSelector + "\n"
    ensures |s| > 0 && s[|s| - 1] == '\n'
  {
    var head := "Model: " + spec.modelRef.GetOr("") + "\n";
    var tail := "Node selector: " + nodeSelector + "\n";
    var s := head + tail;
    assert s[..|head|] == head && s[|head|..] == tail;
    s
  }

  // ---------------------------------------------------------------------
  // JSON shape (serde, camelCase, skip rules and defaults)
  // ---------------------------------------------------------------------

  datatype Json = JStr(s: string) | JObj(fields: map<string, Json>) | JArr(items: seq<Json>)

  function StringMapToJson(m: map<string, string>): Json {
    JObj(map k | k in m :: JStr(m[k]))
  }

  function StringMapFromJson(j: Json): Option<map<string, string>> {
    if j.JObj? && forall k :: k in j.fields ==> j.fields[k].JStr? then
      Some(map k | k in j.fields :: j.fields[k].s)
    else None
  }

  /** `metadata` is omitted when empty. */
  function TwinPropertyToJson(p: TwinProperty): (j: Json)
    ensures j.JObj? && "value" in j.fields
    ensures "metadata" in j.fields <==> p.metadata != map[]
  {
    var base := map["value" := JStr(p.value)];
    if p.metadata == map[] then JObj(base)
    else JObj(base["metadata" := StringMapToJson(p.metadata)])
  }

  /** A missing `metadata` reads as the empty map (`#[serde(default)]`). */
  function TwinPropertyFromJson(j: Json): Option<TwinProperty> {
    if j.JObj? && "value" in j.fields && j.fields["value"].JStr? then
      if "metadata" !in j.fields then Some(TwinProperty(j.fields["value"].s, map[]))
      else
        match StringMapFromJson(j.fields["metadata"])
        case Some(m) => Some(TwinProperty(j.fields["value"].s, m))
        case None => None
    else None
  }

  /** `reported` is omitted when absent. */
  function TwinToJson(t: Twin): (j: Json)
    ensures j.JObj? && "propertyName" in j.fields && "desired" in j.fields
    ensures "reported" in j.fields <==> t.reported.Some?
  {
    var base := map["propertyName" := JStr(t.propertyName), "desired" := TwinPropertyToJson(t.desired)];
    if t.reported.None? then JObj(base)
    else JObj(base["reported" := TwinPropertyToJson(t.reported.value)])
  }

  function TwinFromJson(j: Json): Option<Twin> {
    if j.JObj? && "propertyName" in j.fields && j.fields["propertyName"].JStr? && "desired" in j.fields then
      match TwinPropertyFromJson(j.fields["desired"])
      case None => None
      case Some(d) =>
        if "reported" !in j.fields then Some(Twin(j.fields["propertyName"].s, d, None))
        else
          match TwinPropertyFromJson(j.fields["reported"])
          case None => None
          case Some(r) => Some(Twin(j.fields["propertyName"].s, d, Some(r)))
    else None
  }

  function TwinsToJson(ts: seq<Twin>): (js: seq<Json>)
    ensures |js| == |ts|
  {
    if |ts| == 0 then [] else [TwinToJson(ts[0])] + TwinsToJson(ts[1..])
  }

  function TwinsFromJson(js: seq<Json>): Option<seq<Twin>> {
    if |js| == 0 then Some([])
    else
      match (TwinFromJson(js[0]), TwinsFromJson(js[1..]))
      case (Some(t), Some(ts)) => Some([t] + ts)
      case _ => None
  }

  /** `twins` is omitted when empty. */
  function DeviceStatusToJson(s: DeviceStatus): (j: Json)
    ensures j.JObj?
    ensures "twins" in j.fields <==> s.twins != []
  {
    if s.twins == [] then JObj(map[]) else JObj(map["twins" := JArr(TwinsToJson(s.twins))])
  }

  /** A missing `twins` reads as the empty list. */
  function DeviceStatusFromJson(j: Json): Option<DeviceStatus> {
    if !j.JObj? then None
    else if "twins" !in j.fields then Some(DeviceStatus([]))
    else if !j.fields["twins"].JArr? then None
    else
      match TwinsFromJson(j.fields["twins"].items)
      case Some(ts) => Some(DeviceStatus(ts))
      case None => None
  }

  lemma StringMapJsonRoundTrip(m: map<string, string>)
    ensures StringMapFromJson(StringMapToJson(m)) == Some(m)
  {
    var j := StringMapToJson(m);
    assert forall k :: k in j.fields ==> j.fields[k].JStr?;
    var back := map k | k in j.fields :: j.fields[k].s;
    assert back.Keys == m.Keys;
    assert forall k :: k in back ==> back[k] == m[k];
    assert back == m;
    assert StringMapFromJson(j) == Some(back);
  }

  lemma TwinPropertyJsonRoundTrip(p: TwinProperty)
    ensures TwinPropertyFromJson(TwinPropertyToJson(p)) == Some(p)
  {
    if p.metadata != map[] {
      StringMapJsonRoundTrip(p.metadata);
    }
  }

  lemma TwinJsonRoundTrip(t: Twin)
    ensures TwinFromJson(TwinToJson(t)) == Some(t)
  {
    TwinPropertyJsonRoundTrip(t.desired);
    if t.reported.Some? {
      TwinPropertyJsonRoundTrip(t.reported.value);
    }
  }

  lemma {:induction false} TwinsJsonRoundTrip(ts: seq<Twin>)
    ensures TwinsFromJson(TwinsToJson(ts)) == Some(ts)
  {
    if |ts| > 0 {
      TwinJsonRoundTrip(ts[0]);
      TwinsJsonRoundTrip(ts[1..]);
      assert TwinsToJson(ts)[1..] == TwinsToJson(ts[1..]);
      assert [ts[0]] + ts[1..] == ts;
    }
  }

  /** The skip rules lose nothing: a device status read back from its JSON,
      with the serde defaults for the omitted fields, is the status written. */
  lemma DeviceStatusJsonRoundTrip(s: DeviceStatus)
    ensures DeviceStatusFromJson(DeviceStatusToJson(s)) == Some(s)
  {
    if s.twins != [] {
      TwinsJsonRoundTrip(s.twins);
    }
  }
}
