/** Setting up and finishing one script run on the Deno executor
    (executor/deno/src/worker.rs): the op state built from a `RunScript`,
    the outcome of downloading and running the script, and the status
    report sent back. The JavaScript runtime, the HTTP download and the
    clock are replaced by their results, passed in. */
module Worker {
  import opened Base
  import opened ScriptApi
  import opened Proto
  import opened Ops
  import DeviceOps
  import Session

  /** The writable table of a new worker: each alias with its resource
      name and nothing staged. */
  function FreshSnapshots(writable: map<string, WriteDevice>): (m: map<string, DeviceSnapshot>)
    ensures m.Keys == writable.Keys
    ensures forall k :: k in m ==> m[k] == DeviceSnapshot(writable[k].name, map[])
  {
    map k | k in writable :: DeviceSnapshot(writable[k].name, map[])
  }

  /** `DenoWorker::new`: the manifest must be present (`unwrap`); an empty
      register falls back to the executor's default; the QoS is the run's
      default policy as prost reads it; the start time is `now`. */
  function NewWorker(run: RunScript, defaultRegister: string, now: Timestamp): (r: Result<OpState, string>)
    ensures r.Ok? <==> run.manifest.Some?
    ensures r.Ok? ==>
      var m := run.manifest.value;
      && r.value.rule == Rule(run.scriptId, now, m.packageName, m.packageVersion,
                              if m.register == "" then defaultRegister else m.register,
                              QosOrDefault(run.defaultQos))
      && r.value.readable == run.readable
      && r.value.env == run.env
      && r.value.writable.Keys == run.writable.Keys
      && (forall k :: k in r.value.writable ==>
            r.value.writable[k].name == run.writable[k].name && r.value.writable[k].commits == map[])
  {
    match run.manifest
    case None => Err("called `Option::unwrap()` on a `None` value")
    case Some(m) =>
      var register := if m.register == "" then defaultRegister else m.register;
      var rule := Rule(run.scriptId, now, m.packageName, m.packageVersion, register, QosOrDefault(run.defaultQos));
      Ok(OpState(rule, run.readable, FreshSnapshots(run.writable), run.env))
  }

  /** A new worker starts with nothing staged: committing one of its
      devices straight away asks for no desired values, and after one
      staged write the commit asks for exactly that write. An alias the
      run did not list is "Device not found". */
  lemma FreshWorkerCommits(run: RunScript, defaultRegister: string, now: Timestamp,
                           name: string, property: string, value: string, answer: Result<(), Status>)
    requires run.manifest.Some?
    ensures var st := NewWorker(run, defaultRegister, now).value;
      && (name !in run.writable ==> DeviceOps.CommitDevice(st, name, None, answer).0 == Err(DeviceOps.DeviceNotFound))
      && (name in run.writable ==>
            && DeviceOps.CommitDevice(st, name, None, answer).2
                 == Some(UpdateDevice(run.scriptId, run.writable[name].name, map[], QosCode(QosOrDefault(run.defaultQos))))
            && DeviceOps.UpdateDeviceDesired(st, name, property, value).Ok?
            && DeviceOps.CommitDevice(DeviceOps.UpdateDeviceDesired(st, name, property, value).value, name, None, answer).2.value.desired
                 == map[property := value])
  {
  }

  /** The register a run resolves against: its own, or the default when empty. */
  lemma RegisterFallback(run: RunScript, defaultRegister: string, now: Timestamp)
    requires run.manifest.Some?
    ensures run.manifest.value.register == "" ==> NewWorker(run, defaultRegister, now).value.rule.register == defaultRegister
    ensures run.manifest.value.register != "" ==> NewWorker(run, defaultRegister, now).value.rule.register == run.manifest.value.register
  {
  }

  /** The response to the script download. */
  datatype Download = Download(status: int, statusText: string)

  /** How a run ends: `Panicked` for the `expect` on a bad register URL,
      which kills the task before any report is sent. */
  datatype Outcome = Panicked(message: string) | Finished(result: Result<(), string>)

  /** `run_inner`: build the URL, download, then run the script. A failed
      request or a non-2xx status fails the run before any script code runs;
      otherwise the run fails as the script does. */
  function RunInner(st: OpState, download: Result<Download, string>, execution: Result<(), string>): (o: Outcome)
    ensures o.Panicked? <==> RuleUrl(st.rule).Err?
    ensures o.Finished? && download.Err? ==> o.result == Err(download.error)
    ensures o.Finished? && download.Ok? && !(200 <= download.value.status < 300) ==>
      o.result == Err("Download script failed with status: " + download.value.statusText)
    ensures o.Finished? && download.Ok? && 200 <= download.value.status < 300 ==> o.result == execution
  {
    match RuleUrl(st.rule)
    case Err(e) => Panicked(e)
    case Ok(_) =>
      match download
      case Err(e) => Finished(Err(e))
      case Ok(res) =>
        if !(200 <= res.status < 300) then
          Finished(Err("Download script failed with status: " + res.statusText))
        else Finished(execution)
  }

  /** A nanosecond count of a time or duration. */
  function TotalNanos(t: Timestamp): int {
    t.seconds * 1_000_000_000 + t.nanos
  }

  /** `now - start` as `(whole_seconds, subsec_nanoseconds)`: both round
      toward zero, so they share the sign of the difference. */
  function Elapsed(start: Timestamp, now: Timestamp): (d: Timestamp)
    requires -1_000_000_000 < start.nanos < 1_000_000_000 && -1_000_000_000 < now.nanos < 1_000_000_000
    ensures TotalNanos(d) == TotalNanos(now) - TotalNanos(start)
    ensures TotalNanos(d) >= 0 ==> 0 <= d.nanos < 1_000_000_000
    ensures TotalNanos(d) < 0 ==> -1_000_000_000 < d.nanos <= 0
  {
    var diff := TotalNanos(now) - TotalNanos(start);
    var secs := TruncDiv(diff, 1_000_000_000);
    Timestamp(secs, diff - secs * 1_000_000_000)
  }

  /** The status report of a finished run: `Crash` with the error's text, or
      `Ok` with an empty message. */
  function Report(st: OpState, result: Result<(), string>, now: Timestamp): (r: ScriptStatusReport)
    requires 0 <= st.rule.startTime.nanos < 1_000_000_000 && 0 <= now.nanos < 1_000_000_000
    ensures r.scriptId == st.rule.scriptId && r.start == Some(st.rule.startTime)
    ensures r.code == StatusCodeNumber(if result.Ok? then StatusOk else StatusCrash)
    ensures r.message == (if result.Ok? then "" else result.error)
    ensures r.duration.Some? && TotalNanos(r.duration.value) == TotalNanos(now) - TotalNanos(st.rule.startTime)
  {
    var (code, message) := if result.Err? then (StatusCrash, result.error) else (StatusOk, "");
    ScriptStatusReport(st.rule.scriptId, Some(st.rule.startTime), Some(Elapsed(st.rule.startTime, now)),
                       StatusCodeNumber(code), message)
  }

  /** `run`: the report sent when the run finishes; none after a panic. */
  function Run(st: OpState, outcome: Outcome, now: Timestamp): (r: Option<ScriptStatusReport>)
    requires 0 <= st.rule.startTime.nanos < 1_000_000_000 && 0 <= now.nanos < 1_000_000_000
    ensures r.Some? <==> outcome.Finished?
    ensures r.Some? ==> r.value.code == (if outcome.result.Ok? then 0 else 1)
  {
    match outcome
    case Panicked(_) => None
    case Finished(result) => Some(Report(st, result, now))
  }

  /** What the controller records from this report for a script it has
      running: the start in whole milliseconds, the run time in whole
      microseconds modulo 2^32, the status code and the message. */
  lemma ReportRecorded(m: Session.SessionManager, st: OpState, result: Result<(), string>, now: Timestamp, patchOk: bool)
    requires 0 <= st.rule.startTime.nanos < 1_000_000_000 && 0 <= now.nanos < 1_000_000_000
    requires TotalNanos(now) >= TotalNanos(st.rule.startTime)
    requires st.rule.scriptId in m.scripts
    ensures var (_, m', patch) := Session.UpdateScriptStatus(m, Report(st, result, now), patchOk);
      && st.rule.scriptId !in m'.scripts
      && patch.Some?
      && patch.value.status.lastRun == TotalNanos(st.rule.startTime) / 1_000_000
      && patch.value.status.elapsedTime == ((TotalNanos(now) - TotalNanos(st.rule.startTime)) / 1000) % U32_MODULUS
      && patch.value.status.status == (if result.Ok? then 0 else 1)
      && patch.value.status.message == (if result.Ok? then "" else result.error)
  {
    var r := Report(st, result, now);
    Session.TimeConversionsExact(r.start.value);
    Session.TimeConversionsExact(r.duration.value);
  }
}
