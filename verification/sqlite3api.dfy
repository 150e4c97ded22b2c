/** Loading rule scripts from the SQLite tables and following the `EventLog`
    table into the reflector (controller/common/src/trigger/sqlite3api.rs).
    The database is a value: rows per script id, already in query order.
    SQL text, the connection lock, the polling clock and console output are
    not modelled. */
module Sqlite3Trigger {
  import opened Base
  import opened Text
  import opened ScriptApi
  import ScriptSqlite3
  import opened Scheduler

  // ---------------------------------------------------------------------
  // `parse_match_string`
  // ---------------------------------------------------------------------

  /** One `key:value` item: `splitn(2, ':')`, a missing value reads as "". */
  function ParseEntry(kv: string): (e: (string, string))
    ensures ':' !in e.0
    ensures ':' in kv ==> kv == e.0 + ":" + e.1
    ensures ':' !in kv ==> e == (kv, "")
  {
    var (k, v) := SplitOnce(kv, ':');
    (k, v.GetOr(""))
  }

  /** `collect()` into a `HashMap`: a later pair overwrites an earlier one with the same key. */
  function Collect(ps: seq<(string, string)>): (m: map<string, string>)
    ensures m.Keys == set i | 0 <= i < |ps| :: ps[i].0
    decreases |ps|
  {
    if |ps| == 0 then map[]
    else
      var m := Collect(ps[..|ps| - 1]);
      var last := ps[|ps| - 1];
      assert forall i :: 0 <= i < |ps| - 1 ==> ps[..|ps| - 1][i] == ps[i];
      m[last.0 := last.1]
  }

  /** `j` is the last position in `ps` holding key `k`. */
  predicate IsLastKey(ps: seq<(string, string)>, k: string, j: int) {
    0 <= j < |ps| && ps[j].0 == k && forall l :: j < l < |ps| ==> ps[l].0 != k
  }

  /** Every key maps to the value of its last occurrence. */
  lemma {:induction false} CollectLastWins(ps: seq<(string, string)>, k: string)
    requires k in Collect(ps)
    ensures exists j :: IsLastKey(ps, k, j) && Collect(ps)[k] == ps[j].1
    decreases |ps|
  {
    var n := |ps| - 1;
    if ps[n].0 == k {
      assert IsLastKey(ps, k, n);
    } else {
      var init := ps[..n];
      CollectLastWins(init, k);
      var j :| IsLastKey(init, k, j) && Collect(init)[k] == init[j].1;
      assert IsLastKey(ps, k, j);
    }
  }

  function ParseEntries(parts: seq<string>): (es: seq<(string, string)>)
    ensures |es| == |parts| && forall i :: 0 <= i < |parts| ==> es[i] == ParseEntry(parts[i])
  {
    seq(|parts|, i requires 0 <= i < |parts| => ParseEntry(parts[i]))
  }

  /** `parse_match_string`: comma-separated `key:value` items into a map. */
  function ParseMatchString(s: string): map<string, string> {
    Collect(ParseEntries(Split(s, ',')))
  }

  function RenderItem(p: (string, string)): string {
    p.0 + ":" + p.1
  }

  function RenderItems(ps: seq<(string, string)>): (items: seq<string>)
    ensures |items| == |ps| && forall i :: 0 <= i < |ps| ==> items[i] == RenderItem(ps[i])
  {
    if |ps| == 0 then [] else [RenderItem(ps[0])] + RenderItems(ps[1..])
  }

  /** The text form `parse_match_string` reads: items joined by commas. */
  function RenderMatchString(ps: seq<(string, string)>): string
    requires |ps| >= 1
  {
    Join(RenderItems(ps), ',')
  }

  /** Parsing inverts rendering whenever keys hold neither ',' nor ':' and
      values hold no ','; with duplicate keys the last item wins. */
  lemma ParseRenderRoundTrip(ps: seq<(string, string)>)
    requires |ps| >= 1
    requires forall i :: 0 <= i < |ps| ==> ',' !in ps[i].0 && ':' !in ps[i].0 && ',' !in ps[i].1
    ensures ParseMatchString(RenderMatchString(ps)) == Collect(ps)
  {
    var items := RenderItems(ps);
    ItemsAreSplitAndParsed(ps, items);
    SplitJoin(items, ',');
  }

  lemma ItemsAreSplitAndParsed(ps: seq<(string, string)>, items: seq<string>)
    requires forall i :: 0 <= i < |ps| ==> ',' !in ps[i].0 && ':' !in ps[i].0 && ',' !in ps[i].1
    requires items == RenderItems(ps)
    ensures forall i :: 0 <= i < |items| ==> ',' !in items[i]
    ensures ParseEntries(items) == ps
  {
    forall i | 0 <= i < |items|
      ensures ',' !in items[i] && ParseEntry(items[i]) == ps[i]
    {
      ItemParses(ps[i]);
    }
  }

  lemma ItemParses(p: (string, string))
    requires ',' !in p.0 && ':' !in p.0 && ',' !in p.1
    ensures ',' !in RenderItem(p) && ParseEntry(RenderItem(p)) == p
  {
    assert RenderItem(p) == p.0 + [':'] + p.1;
    SplitOnceJoin(p.0, p.1, ':');
  }

  /** An empty column does not give an empty map: it gives one entry whose
      key and value are both empty. */
  lemma EmptyMatchString()
    ensures ParseMatchString("") == map["" := ""]
  {
    assert Split("", ',') == [""];
    assert ParseEntries([""]) == [("", "")];
  }

  // ---------------------------------------------------------------------
  // Rows and the `fetch_*` functions
  // ---------------------------------------------------------------------

  /** A `Script` row (`ScriptSqlite3`). */
  datatype ScriptRow = ScriptRow(name: string, scriptType: string, version: string,
                                 elapsedTime: i32, lastRun: i32, message: string, status: i32)

  /** An `ExecutePolicies` row; `qos` is still text. */
  datatype PolicyRow = PolicyRow(cron: string, qos: string, readChange: bool, webhook: bool)

  /** A `Selector` row: `Type`, `MatchTypes`, `MatchNames`. */
  datatype SelectorRow = SelectorRow(selectorType: string, matchTypes: string, matchNames: string)

  /** The tables, by script id. A script without environment or selector rows
      has an empty list. */
  datatype Database = Database(
    scripts: map<int, ScriptRow>,
    env: map<int, seq<(string, string)>>,
    policies: map<int, PolicyRow>,
    selectors: map<int, seq<SelectorRow>>)

  /** Why a database step fails: `query_row` found no row, the QoS text is
      unknown (mapped to `InvalidQuery`), the script type is unknown, or a
      statement names a column its table does not have. */
  datatype DbError = NoRows | InvalidQuery | UnknownScriptType(message: string) | NoSuchColumn(column: string)

  function FetchScriptDetails(db: Database, id: int): (r: Result<ScriptRow, DbError>)
    ensures r.Ok? <==> id in db.scripts
    ensures r.Err? ==> r.error == NoRows
    ensures r.Ok? ==> r.value == db.scripts[id]
  {
    if id in db.scripts then Ok(db.scripts[id]) else Err(NoRows)
  }

  /** `fetch_environment_variables`: later rows overwrite earlier ones. */
  function FetchEnvironment(db: Database, id: int): map<string, string> {
    Collect(if id in db.env then db.env[id] else [])
  }

  /** `fetch_execute_policy`: the QoS text must name a policy. */
  function FetchExecutePolicy(db: Database, id: int): (r: Result<Policy, DbError>)
    ensures r.Ok? <==> id in db.policies && ScriptSqlite3.QosFromStr(db.policies[id].qos).Ok?
    ensures id !in db.policies ==> r == Err(NoRows)
    ensures id in db.policies && r.Err? ==> r.error == InvalidQuery
    ensures r.Ok? ==> var row := db.policies[id];
      r.value == Policy(row.readChange, row.webhook, row.cron, ScriptSqlite3.QosFromStr(row.qos).value)
  {
    if id !in db.policies then Err(NoRows)
    else
      var row := db.policies[id];
      match ScriptSqlite3.QosFromStr(row.qos)
      case Err(_) => Err(InvalidQuery)
      case Ok(q) => Ok(Policy(row.readChange, row.webhook, row.cron, q))
  }

  const NO_SELECTOR: DeviceSelectorSet := DeviceSelectorSet(None, None)

  function SelectorFromRow(row: SelectorRow): DeviceSelectorSet {
    DeviceSelectorSet(Some(ParseMatchString(row.matchNames)), Some(ParseMatchString(row.matchTypes)))
  }

  /** One iteration of the selector loop: a row of type "readSelector" or
      "writeSelector" replaces that selector, other types are ignored. */
  function UpdateSelectors(p: (DeviceSelectorSet, DeviceSelectorSet), row: SelectorRow): (DeviceSelectorSet, DeviceSelectorSet) {
    if row.selectorType == "readSelector" then (SelectorFromRow(row), p.1)
    else if row.selectorType == "writeSelector" then (p.0, SelectorFromRow(row))
    else p
  }

  /** The selector loop over one script's rows. */
  function SelectorsOf(rows: seq<SelectorRow>): (DeviceSelectorSet, DeviceSelectorSet)
    decreases |rows|
  {
    if |rows| == 0 then (NO_SELECTOR, NO_SELECTOR)
    else UpdateSelectors(SelectorsOf(rows[..|rows| - 1]), rows[|rows| - 1])
  }

  lemma PickUpdate(p: (DeviceSelectorSet, DeviceSelectorSet), row: SelectorRow, t: string)
    requires t == "readSelector" || t == "writeSelector"
    ensures row.selectorType == t ==> Pick(UpdateSelectors(p, row), t) == SelectorFromRow(row)
    ensures row.selectorType != t ==> Pick(UpdateSelectors(p, row), t) == Pick(p, t)
  {
  }

  /** `j` is the last row of type `t`. */
  predicate IsLastOfType(rows: seq<SelectorRow>, t: string, j: int) {
    0 <= j < |rows| && rows[j].selectorType == t && forall l :: j < l < |rows| ==> rows[l].selectorType != t
  }

  /** The selector of type `t` in a (read, write) pair. */
  function Pick(p: (DeviceSelectorSet, DeviceSelectorSet), t: string): DeviceSelectorSet {
    if t == "readSelector" then p.0 else p.1
  }

  /** Each selector comes from the last row of its type. */
  lemma {:induction false} SelectorFromLastRow(rows: seq<SelectorRow>, t: string, j: int)
    requires t == "readSelector" || t == "writeSelector"
    requires IsLastOfType(rows, t, j)
    ensures Pick(SelectorsOf(rows), t) == SelectorFromRow(rows[j])
    decreases |rows|
  {
    var n := |rows| - 1;
    var init := rows[..n];
    assert SelectorsOf(rows) == UpdateSelectors(SelectorsOf(init), rows[n]);
    PickUpdate(SelectorsOf(init), rows[n], t);
    if j < n {
      assert IsLastOfType(init, t, j);
      SelectorFromLastRow(init, t, j);
    }
  }

  /** A selector with no row of its type stays unset (both maps `None`). */
  lemma {:induction false} SelectorUnsetWithoutRow(rows: seq<SelectorRow>, t: string)
    requires t == "readSelector" || t == "writeSelector"
    requires forall l :: 0 <= l < |rows| ==> rows[l].selectorType != t
    ensures Pick(SelectorsOf(rows), t) == NO_SELECTOR
    decreases |rows|
  {
    if |rows| > 0 {
      var init := rows[..|rows| - 1];
      assert forall l :: 0 <= l < |init| ==> init[l] == rows[l];
      SelectorUnsetWithoutRow(init, t);
      PickUpdate(SelectorsOf(init), rows[|rows| - 1], t);
    }
  }

  function FetchSelectors(db: Database, id: int): (DeviceSelectorSet, DeviceSelectorSet) {
    SelectorsOf(if id in db.selectors then db.selectors[id] else [])
  }

  /** `create_script_struct`: the SQLite script-type parser (which also
      accepts "Js"), no register, and the row's status fields converted:
      `last_run` widens to i64, `elapsed_time` is cast i32 -> u32 (two's
      complement). */
  function CreateScriptStruct(row: ScriptRow, env: map<string, string>, policy: Policy,
                              selectors: (DeviceSelectorSet, DeviceSelectorSet)): (r: Result<Script, DbError>)
    ensures r.Ok? <==> ScriptSqlite3.ScriptTypeFromStr(row.scriptType).Ok?
    ensures r.Err? ==> r.error == UnknownScriptType("Unknown script type")
    ensures r.Ok? ==>
      && r.value.spec.manifest == Manifest(ScriptSqlite3.ScriptTypeFromStr(row.scriptType).value, row.name, row.version, None)
      && r.value.spec.readSelector == selectors.0 && r.value.spec.writeSelector == selectors.1
      && r.value.spec.env == env && r.value.spec.executePolicy == policy
      && r.value.status.Some?
      && r.value.status.value.lastRun == row.lastRun
      && r.value.status.value.status == row.status && r.value.status.value.message == row.message
      && (row.elapsedTime >= 0 ==> r.value.status.value.elapsedTime == row.elapsedTime)
      && (row.elapsedTime < 0 ==> r.value.status.value.elapsedTime == row.elapsedTime + U32_MODULUS)
  {
    match ScriptSqlite3.ScriptTypeFromStr(row.scriptType)
    case Err(e) => Err(UnknownScriptType(e))
    case Ok(t) =>
      var manifest := Manifest(t, row.name, row.version, None);
      var spec := ScriptSpec(selectors.0, selectors.1, env, manifest, policy);
      var elapsed := WrapU32(row.elapsedTime);
      assert row.elapsedTime < 0 ==> elapsed == row.elapsedTime + U32_MODULUS by {
        if row.elapsedTime < 0 {
          WrapU32Negative(row.elapsedTime);
        }
      }
      Ok(Script(spec, Some(ScriptStatus(row.lastRun, elapsed, row.status, row.message))))
  }

  /** A negative i32 cast to u32 adds 2^32. */
  lemma WrapU32Negative(x: int)
    requires -0x8000_0000 <= x < 0
    ensures WrapU32(x) == x + U32_MODULUS
  {
    assert (x + U32_MODULUS) - x == U32_MODULUS;
  }

  /** The four fetches and `create_script_struct` in the source's order; the
      first failure wins. */
  function LoadScript(db: Database, id: int): (r: Result<Script, DbError>)
    ensures r.Ok? <==>
      && id in db.scripts && id in db.policies
      && ScriptSqlite3.QosFromStr(db.policies[id].qos).Ok?
      && ScriptSqlite3.ScriptTypeFromStr(db.scripts[id].scriptType).Ok?
    ensures id !in db.scripts ==> r == Err(NoRows)
    ensures r.Ok? ==>
      && r.value.spec.manifest.name == db.scripts[id].name
      && r.value.spec.env == FetchEnvironment(db, id)
      && (r.value.spec.readSelector, r.value.spec.writeSelector) == FetchSelectors(db, id)
  {
    var row :- FetchScriptDetails(db, id);
    var env := FetchEnvironment(db, id);
    var policy :- FetchExecutePolicy(db, id);
    var selectors := FetchSelectors(db, id);
    CreateScriptStruct(row, env, policy, selectors)
  }

  // ---------------------------------------------------------------------
  // Import and the event loop
  // ---------------------------------------------------------------------

  /** `import_existing_scripts`: add every script in turn; the first load
      failure ends the import, leaving the scripts added so far. */
  function ImportExisting(db: Database, r: Reflector, ids: seq<int>): (out: (Reflector, Option<DbError>))
    decreases |ids|
  {
    if |ids| == 0 then (r, None)
    else
      match LoadScript(db, ids[0])
      case Err(e) => (r, Some(e))
      case Ok(s) => ImportExisting(db, AddScript(r, s), ids[1..])
  }

  /** An `EventLog` row: script id and event type. */
  datatype EventRow = EventRow(scriptId: int, eventType: string)

  /** What one event does to the reflector once its script is loaded. */
  function ApplyEvent(r: Reflector, eventType: string, s: Script): (r': Reflector)
    ensures eventType in {"Inserted", "Updated"} ==> r' == AddScript(r, s)
    ensures eventType == "Deleted" ==> r' == RemoveScript(r, s)
    ensures eventType !in {"Inserted", "Updated", "Deleted"} ==> r' == r
  {
    match eventType
    case "Inserted" => AddScript(r, s)
    case "Updated" => AddScript(r, s)
    case "Deleted" => RemoveScript(r, s)
    case _ => r
  }

  /** The event loop as written: every event, whatever its type, first loads
      its script; a failed load leaves the polling function (its error is
      dropped by `reflector_sqlite3`), so no later event is ever applied. */
  function ProcessEvents(db: Database, r: Reflector, evs: seq<EventRow>): (out: (Reflector, Option<DbError>))
    decreases |evs|
  {
    if |evs| == 0 then (r, None)
    else
      match LoadScript(db, evs[0].scriptId)
      case Err(e) => (r, Some(e))
      case Ok(s) => ProcessEvents(db, ApplyEvent(r, evs[0].eventType, s), evs[1..])
  }

  /** One "Inserted" event per script id, in order. */
  function InsertEvents(ids: seq<int>): (evs: seq<EventRow>)
    ensures |evs| == |ids| && forall i :: 0 <= i < |ids| ==> evs[i] == EventRow(ids[i], "Inserted")
  {
    seq(|ids|, i requires 0 <= i < |ids| => EventRow(ids[i], "Inserted"))
  }

  /** Importing is the event loop fed one "Inserted" event per script. */
  lemma {:induction false} ImportIsInsertEvents(db: Database, r: Reflector, ids: seq<int>)
    ensures ImportExisting(db, r, ids) == ProcessEvents(db, r, InsertEvents(ids))
    decreases |ids|
  {
    if |ids| > 0 {
      match LoadScript(db, ids[0])
      case Err(e) =>
      case Ok(s) =>
        ImportIsInsertEvents(db, AddScript(r, s), ids[1..]);
        assert InsertEvents(ids)[1..] == InsertEvents(ids[1..]);
    }
  }

  /** Running two batches of events one after the other is running their
      concatenation: the second batch runs only when the first ends
      without error. */
  lemma {:induction false} ProcessEventsAppend(db: Database, r: Reflector, a: seq<EventRow>, b: seq<EventRow>)
    ensures var first := ProcessEvents(db, r, a);
      ProcessEvents(db, r, a + b) == if first.1.Some? then first else ProcessEvents(db, first.0, b)
    decreases |a|
  {
    if |a| == 0 {
      assert a + b == b;
    } else {
      assert (a + b)[0] == a[0] && (a + b)[1..] == a[1..] + b;
      match LoadScript(db, a[0].scriptId)
      case Err(e) =>
      case Ok(s) => ProcessEventsAppend(db, ApplyEvent(r, a[0].eventType, s), a[1..], b);
    }
  }

  /** The columns of the `Script` table as the schema creates them
      (controller/common/src/api/db.rs). */
  const SCRIPT_COLUMNS: seq<string> :=
    ["ScriptID", "Name", "ScriptType", "Version", "ElapsedTime", "LastRun", "Message", "Status"]

  /** The column the import query selects, as written. */
  const IMPORT_ID_COLUMN: string := "id"

  /** The column that holds a script's id. */
  const SCRIPT_ID_COLUMN: string := "ScriptID"

  /** `reflector_sqlite3` with an import query selecting `idColumn`, where
      `ids` are the ids that query returns and `evs` the events polled
      afterwards. A column the table lacks makes `prepare` fail, and the
      error is returned before anything is polled. Otherwise the import
      runs; its error is returned, and when there is none the events are
      processed and a polling error is dropped. */
  function ReflectorSqlite3(idColumn: string, db: Database, r: Reflector, ids: seq<int>, evs: seq<EventRow>)
    : (out: (Reflector, Option<DbError>))
    ensures idColumn !in SCRIPT_COLUMNS ==> out == (r, Some(NoSuchColumn(idColumn)))
    ensures idColumn in SCRIPT_COLUMNS ==> out.1 == ImportExisting(db, r, ids).1
  {
    if idColumn !in SCRIPT_COLUMNS then (r, Some(NoSuchColumn(idColumn)))
    else
      var (r1, err) := ImportExisting(db, r, ids);
      if err.Some? then (r1, err) else (ProcessEvents(db, r1, evs).0, None)
  }

  /** As written, the import query selects `id`, which the `Script` table
      does not have: whatever the tables and the event log hold, the
      reflector is left as it was and no event is ever polled. */
  lemma ImportQueryNeverPolls(db: Database, r: Reflector, ids: seq<int>, evs: seq<EventRow>)
    ensures IMPORT_ID_COLUMN !in SCRIPT_COLUMNS
    ensures ReflectorSqlite3(IMPORT_ID_COLUMN, db, r, ids, evs) == (r, Some(NoSuchColumn("id")))
  {
  }

  /** Corrected, the import query selects `ScriptID`: importing and then
      polling is one event loop over an "Inserted" event per existing
      script followed by the logged events. Only the import's error is
      returned. */
  lemma FixedImportThenPolls(db: Database, r: Reflector, ids: seq<int>, evs: seq<EventRow>)
    ensures SCRIPT_ID_COLUMN in SCRIPT_COLUMNS
    ensures var out := ReflectorSqlite3(SCRIPT_ID_COLUMN, db, r, ids, evs);
      && out.0 == ProcessEvents(db, r, InsertEvents(ids) + evs).0
      && out.1 == ProcessEvents(db, r, InsertEvents(ids)).1
  {
    assert SCRIPT_COLUMNS[0] == SCRIPT_ID_COLUMN;
    ImportIsInsertEvents(db, r, ids);
    ProcessEventsAppend(db, r, InsertEvents(ids), evs);
  }

  /** A run of events stops at the first one whose script does not load:
      when all load, no error is reported; otherwise the error is the first
      failure's, and the reflector holds exactly the effect of the events
      before it. */
  lemma {:induction false} ProcessEventsStopsAtFirstFailure(db: Database, r: Reflector, evs: seq<EventRow>, k: nat)
    requires k < |evs| && LoadScript(db, evs[k].scriptId).Err?
    requires forall i :: 0 <= i < k ==> LoadScript(db, evs[i].scriptId).Ok?
    ensures ProcessEvents(db, r, evs) == (ProcessEvents(db, r, evs[..k]).0, Some(LoadScript(db, evs[k].scriptId).error))
    decreases k
  {
    if k > 0 {
      var s := LoadScript(db, evs[0].scriptId).value;
      ProcessEventsStopsAtFirstFailure(db, ApplyEvent(r, evs[0].eventType, s), evs[1..], k - 1);
      assert evs[..k][1..] == evs[1..][..k - 1];
    }
  }

  /** When every event's script loads, the loop runs to the end without error. */
  lemma {:induction false} ProcessEventsAllLoad(db: Database, r: Reflector, evs: seq<EventRow>)
    requires forall i :: 0 <= i < |evs| ==> LoadScript(db, evs[i].scriptId).Ok?
    ensures ProcessEvents(db, r, evs).1.None?
    decreases |evs|
  {
    if |evs| > 0 {
      var s := LoadScript(db, evs[0].scriptId).value;
      ProcessEventsAllLoad(db, ApplyEvent(r, evs[0].eventType, s), evs[1..]);
    }
  }

  /** The database logs "Deleted" after the `Script` row is gone (an
      `AFTER DELETE` trigger), so the deleted script can never be loaded:
      the removal is never applied, the script stays in the reflector, and
      polling ends before any later event, here an insertion. */
  lemma DeletedEventStopsPolling(r: Reflector, s: Script)
    requires ScriptIndex(s) in r.scriptStore
    ensures var db := Database(map[8 := ScriptRow("b", "js", "1", 0, 0, "", 0)], map[],
                               map[8 := PolicyRow("", "AtMostOnce", false, false)], map[]);
      var out := ProcessEvents(db, r, [EventRow(7, "Deleted"), EventRow(8, "Inserted")]);
      && out.1 == Some(NoRows)
      && ScriptIndex(s) in out.0.scriptStore
      && LoadScript(db, 8).Ok?
      && ResourceIndex(DEFAULT_NAMESPACE, "b") !in out.0.scriptStore - r.scriptStore.Keys
  {
  }

  // ---------------------------------------------------------------------
  // Corrected event loop
  // ---------------------------------------------------------------------

  /** The reflector together with the index each loaded script id was
      stored under, so that a deletion needs no database row. */
  datatype Tracker = Tracker(reflector: Reflector, known: map<int, ResourceIndex>)

  /** One event, corrected: "Deleted" removes the index remembered for the
      id without touching the database; the other types behave as written. */
  function ApplyEventFixed(db: Database, t: Tracker, ev: EventRow): (out: (Tracker, Option<DbError>))
    ensures ev.eventType == "Deleted" ==> out.1.None?
    ensures ev.eventType == "Deleted" && ev.scriptId in t.known ==>
      out.0.reflector == RemoveScriptIndex(t.reflector, t.known[ev.scriptId])
      && ev.scriptId !in out.0.known
  {
    if ev.eventType == "Deleted" then
      if ev.scriptId in t.known then
        (Tracker(RemoveScriptIndex(t.reflector, t.known[ev.scriptId]), t.known - {ev.scriptId}), None)
      else (t, None)
    else
      match LoadScript(db, ev.scriptId)
      case Err(e) => (t, Some(e))
      case Ok(s) =>
        var known := if ev.eventType in {"Inserted", "Updated"} then t.known[ev.scriptId := ScriptIndex(s)] else t.known;
        (Tracker(ApplyEvent(t.reflector, ev.eventType, s), known), None)
  }

  function ProcessEventsFixed(db: Database, t: Tracker, evs: seq<EventRow>): (out: (Tracker, Option<DbError>))
    decreases |evs|
  {
    if |evs| == 0 then (t, None)
    else
      var (t', err) := ApplyEventFixed(db, t, evs[0]);
      if err.Some? then (t', err) else ProcessEventsFixed(db, t', evs[1..])
  }

  /** Every stored script's index is remembered under some id. */
  predicate Tracks(t: Tracker) {
    forall i :: i in t.reflector.scriptStore ==> exists id :: id in t.known && t.known[id] == i
  }

  /** With the correction, deleting a script whose id was inserted earlier
      removes it from the store and from every device's trigger set, and the
      loop goes on to the next event. */
  lemma DeleteAfterInsertRemoves(db: Database, t: Tracker, id: int, dev: ResourceIndex)
    requires LoadScript(db, id).Ok?
    ensures var t1 := ApplyEventFixed(db, t, EventRow(id, "Inserted"));
      var t2 := ApplyEventFixed(db, t1.0, EventRow(id, "Deleted"));
      var idx := ScriptIndex(LoadScript(db, id).value);
      && t1.1.None? && t2.1.None?
      && idx !in t2.0.reflector.scriptStore
      && idx !in Triggered(t2.0.reflector, dev)
  {
  }

  /** The counterexample of the as-written loop, run through the corrected
      one: the deletion of script 7 (inserted earlier) takes effect and the
      insertion of script 8 after it is applied. */
  lemma FixedLoopKeepsPolling(t: Tracker, s: Script)
    requires 7 in t.known && t.known[7] == ScriptIndex(s)
    ensures var db := Database(map[8 := ScriptRow("b", "js", "1", 0, 0, "", 0)], map[],
                               map[8 := PolicyRow("", "AtMostOnce", false, false)], map[]);
      var out := ProcessEventsFixed(db, t, [EventRow(7, "Deleted"), EventRow(8, "Inserted")]);
      && out.1.None?
      && (ScriptIndex(s) != ResourceIndex(DEFAULT_NAMESPACE, "b") ==> ScriptIndex(s) !in out.0.reflector.scriptStore)
      && ResourceIndex(DEFAULT_NAMESPACE, "b") in out.0.reflector.scriptStore
  {
    var db := Database(map[8 := ScriptRow("b", "js", "1", 0, 0, "", 0)], map[],
                       map[8 := PolicyRow("", "AtMostOnce", false, false)], map[]);
    assert LoadScript(db, 8).Ok?;
    assert LoadScript(db, 8).value.spec.manifest.name == "b";
  }
}
