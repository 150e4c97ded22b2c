/** The logging op of the Deno executor (executor/deno/ops/log.rs): the
    numeric level a script logs at, the redirection of the runtime's print
    op to the logging op, and the record the logging op emits. The tracing
    subscriber is not modelled; a log record is returned instead. */
module LogOps {
  import opened Base
  import opened Ops

  /** The tracing levels, from least to most severe. */
  datatype Level = Trace | Debug | Info | Warn | Error

  /** The position of a level in severity order. */
  function Severity(l: Level): nat {
    match l
    case Trace => 0
    case Debug => 1
    case Info => 2
    case Warn => 3
    case Error => 4
  }

  /** The `event!` level match: 0 to 3 name the four lower levels, and
      every other byte logs at `Error`. */
  function LevelOf(level: u8): (l: Level)
    ensures level < 4 ==> Severity(l) == level
    ensures level >= 4 <==> l == Error
  {
    match level
    case 0 => Trace
    case 1 => Debug
    case 2 => Info
    case 3 => Warn
    case _ => Error
  }

  /** The mapping is total and saturating: a level's severity is the byte
      capped at 4, so a larger byte never logs less severely, and every
      level is reached. */
  lemma LevelOrder(a: u8, b: u8)
    ensures Severity(LevelOf(a)) == if a < 4 then a else 4
    ensures a <= b ==> Severity(LevelOf(a)) <= Severity(LevelOf(b))
    ensures forall l: Level :: LevelOf(Severity(l)) == l
  {
    forall l: Level ensures LevelOf(Severity(l)) == l {
      match l
      case Trace =>
      case Debug =>
      case Info =>
      case Warn =>
      case Error =>
    }
  }

  const OP_PRINT: string := "op_print"
  const OP_LOG: string := "op_log"

  /** The extension's middleware: the op named `op_print` becomes `op_log`;
      any other op is kept. */
  function Middleware(op: string): (r: string)
    ensures op == OP_PRINT ==> r == OP_LOG
    ensures op != OP_PRINT ==> r == op
  {
    if op == OP_PRINT then OP_LOG else op
  }

  /** The runtime's op table after the middleware has run over it: same
      length, no `op_print` left, `op_log` where it was, every other op in
      its place. */
  function Redirect(ops: seq<string>): (r: seq<string>)
    ensures |r| == |ops|
    ensures OP_PRINT !in r
    ensures forall i :: 0 <= i < |ops| && ops[i] == OP_PRINT ==> r[i] == OP_LOG
    ensures forall i :: 0 <= i < |ops| && ops[i] != OP_PRINT ==> r[i] == ops[i]
  {
    assert OP_LOG != OP_PRINT by {
      assert OP_LOG[3] != OP_PRINT[3];
    }
    seq(|ops|, i requires 0 <= i < |ops| => Middleware(ops[i]))
  }

  /** The middleware is idempotent: a table it has already run over is
      left as it is, so running it twice changes nothing. */
  lemma RedirectIdempotent(ops: seq<string>)
    ensures OP_PRINT !in ops ==> Redirect(ops) == ops
    ensures Redirect(Redirect(ops)) == Redirect(ops)
  {
  }

  /** The fields of one log event. */
  datatype LogRecord = LogRecord(
    level: Level,
    msg: string,
    scriptId: u32,
    name: string,
    version: string,
    register: string)

  /** `op_log`: one event at the mapped level, tagged with the running
      rule's identity; it never fails. */
  function OpLog(rule: Rule, level: u8, msg: string): (r: Result<LogRecord, string>)
    ensures r.Ok?
    ensures Severity(r.value.level) == if level < 4 then level else 4
    ensures r.value.msg == msg && r.value.scriptId == rule.scriptId
    ensures r.value.name == rule.name && r.value.version == rule.version && r.value.register == rule.register
  {
    LevelOrder(level, level);
    Ok(LogRecord(LevelOf(level), msg, rule.scriptId, rule.name, rule.version, rule.register))
  }
}
