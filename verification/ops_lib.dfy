/** The state a rule script's ops share (executor/deno/ops/lib.rs): the
    immutable rule, the readable and writable device tables, and the URL the
    script is downloaded from. */
module Ops {
  import opened Base
  import opened Text
  import opened ScriptApi
  import opened Proto
  import opened Url

  /** `Rule`: everything fixed for one run of one script. */
  datatype Rule = Rule(
    scriptId: u32,
    startTime: Timestamp,
    name: string,
    version: string,
    register: string,
    qos: QosPolicy)

  /** `DeviceSnapshot`: a writable device's resource name and the desired
      values committed so far. */
  datatype DeviceSnapshot = DeviceSnapshot(name: string, commits: map<string, string>)

  /** `DeviceSnapshot::default()`. */
  const DEFAULT_SNAPSHOT: DeviceSnapshot := DeviceSnapshot("", map[])

  /** The op state: rule, readable and writable devices by alias, environment. */
  datatype OpState = OpState(
    rule: Rule,
    readable: map<string, ReadDevice>,
    writable: map<string, DeviceSnapshot>,
    env: map<string, string>)

  /** The text `Rule::url` parses: register, name and version joined by
      slashes, with the `.js` extension. */
  function ScriptLocation(rule: Rule): string {
    rule.register + "/" + rule.name + "/" + rule.version + ".js"
  }

  /** `Rule::url`; a text that does not parse is the "Bad register url" panic. */
  function RuleUrl(rule: Rule): (r: Result<Url, string>)
    ensures r.Ok? <==> Parse(ScriptLocation(rule)).Ok?
    ensures r.Ok? ==> r.value == Parse(ScriptLocation(rule)).value && r.value.href == ScriptLocation(rule)
    ensures r.Err? ==> r.error == "Bad register url"
  {
    match Parse(ScriptLocation(rule))
    case Ok(u) => Ok(u)
    case Err(_) => Err("Bad register url")
  }

  /** For a register of the form `scheme://host[:port]` and a name and
      version without slashes, the script URL keeps the register's scheme,
      host and port and has exactly the path segments name and
      `version.js`. */
  lemma RuleUrlSegments(rule: Rule, scheme: string, authority: string)
    requires rule.register == scheme + "://" + authority
    requires ValidScheme(scheme) && '/' !in authority
    requires ParseAuthority(scheme, authority).Ok?
    requires '/' !in rule.name && '/' !in rule.version
    ensures RuleUrl(rule).Ok? && Parse(rule.register).Ok?
    ensures RuleUrl(rule).value.scheme == Parse(rule.register).value.scheme == scheme
    ensures RuleUrl(rule).value.host == Parse(rule.register).value.host
    ensures RuleUrl(rule).value.port == Parse(rule.register).value.port
    ensures (RuleUrl(rule).value.host, RuleUrl(rule).value.port) == ParseAuthority(scheme, authority).value
    ensures RuleUrl(rule).value.path == [rule.name, rule.version + ".js"]
  {
    var last := rule.version + ".js";
    assert '/' !in last by {
      assert forall i :: 0 <= i < |rule.version| ==> last[i] == rule.version[i];
      assert last[|rule.version|..] == ".js";
    }
    var segs := [rule.name, last];
    assert Join(segs, '/') == rule.name + "/" + last by {
      assert Join(segs[1..], '/') == last;
    }
    LocationShape(scheme, authority, rule.name, last);
    assert ScriptLocation(rule) == scheme + "://" + (authority + "/" + Join(segs, '/'));
    ParseHierarchical(scheme, authority, segs);
    ParseAuthorityOnly(scheme, authority);
  }

  lemma LocationShape(scheme: string, authority: string, name: string, last: string)
    ensures scheme + "://" + authority + "/" + name + "/" + last
         == scheme + "://" + (authority + "/" + (name + "/" + last))
  {
  }

  const TEST_HOST: string := "register.default.svc.cluster.local"
  /** `http://register.default.svc.cluster.local:8080`. */
  const TEST_REGISTER: string := "http" + "://" + (TEST_HOST + ":8080")

  lemma ExampleShape()
    ensures TEST_REGISTER == "http" + "://" + (TEST_HOST + ":8080")
    ensures ValidScheme("http") && '/' !in TEST_HOST + ":8080"
    ensures '/' !in "my_script" && '/' !in "0.1_beta1" && "0.1_beta1" + ".js" == "0.1_beta1.js"
  {
    ExampleAuthority();
    ExampleNames();
  }

  lemma ExampleAuthority()
    ensures ValidScheme("http") && '/' !in TEST_HOST + ":8080"
  {
  }

  lemma ExampleNames()
    ensures '/' !in "my_script" && '/' !in "0.1_beta1" && "0.1_beta1" + ".js" == "0.1_beta1.js"
  {
  }

  lemma TestAuthority()
    ensures ParseAuthority("http", TEST_HOST + ":8080") == Ok((TEST_HOST, Some(8080)))
  {
    assert TEST_HOST + ":8080" == TEST_HOST + [':'] + "8080";
    HostHasNoColon();
    SplitOnceJoin(TEST_HOST, "8080", ':');
    PortDigits();
  }

  lemma HostHasNoColon()
    ensures ':' !in TEST_HOST
  {
  }

  lemma PortDigits()
    ensures ParsePort(Some("8080")) == Ok(Some(8080))
  {
    assert forall i :: 0 <= i < 4 ==> IsDigit("8080"[i]);
    assert "8080"[..3] == "808" && "808"[..2] == "80" && "80"[..1] == "8" && "8"[..0] == "";
    assert DigitsValue("8080") == 8080;
  }

  /** The URL of `my_script` version `0.1_beta1` on the in-cluster register:
      scheme `http`, host `register.default.svc.cluster.local`, port 8080,
      path segments `my_script` and `0.1_beta1.js`. An illustration of
      `RuleUrlSegments` on the worker's test inputs. */
  lemma RuleUrlExample(start: Timestamp)
    ensures var rule := Rule(0, start, "my_script", "0.1_beta1", TEST_REGISTER, AtMostOnce);
      && RuleUrl(rule).Ok?
      && RuleUrl(rule).value.scheme == "http"
      && RuleUrl(rule).value.host == TEST_HOST
      && RuleUrl(rule).value.port == Some(8080)
      && RuleUrl(rule).value.path == ["my_script", "0.1_beta1.js"]
  {
    var rule := Rule(0, start, "my_script", "0.1_beta1", TEST_REGISTER, AtMostOnce);
    ExampleShape();
    TestAuthority();
    RuleUrlSegments(rule, "http", TEST_HOST + ":8080");
  }
}
