/** The gRPC messages exchanged by controller and executors, as plain records.
    The generated code of the `rule` protobuf package is not part of this
    model; the field lists follow their uses in session.rs, scheduler.rs,
    executor/common/src/lib.rs, devices.rs and worker.rs. */
module Proto {
  import opened Base
  import opened ScriptApi

  /** `run_script::ReadDevice`: resource name and reported property values. */
  datatype ReadDevice = ReadDevice(name: string, status: map<string, string>)

  /** `run_script::WriteDevice`: resource name of a writable device. */
  datatype WriteDevice = WriteDevice(name: string)

  /** `run_script::Manifest`; `scriptType` is the enum's number. */
  datatype ProtoManifest = ProtoManifest(scriptType: int, packageName: string, packageVersion: string, register: string)

  /** `RunScript`: one scheduled run of a rule script. */
  datatype RunScript = RunScript(
    scriptId: u32,
    manifest: Option<ProtoManifest>,
    readable: map<string, ReadDevice>,
    writable: map<string, WriteDevice>,
    env: map<string, string>,
    defaultQos: int)

  datatype ClientCode = Connect | Continue | Disconnect
  datatype ClientInfo = ClientInfo(maxJob: int)
  datatype ClientMessage = ClientMessage(code: ClientCode, info: Option<ClientInfo>)

  datatype DisconnectReason = ClientExit | ServerExit

  /** `server_message::Msg`. */
  datatype Msg = Connected(executorId: u32) | Script(run: RunScript) | Disconnected(reason: DisconnectReason)

  /** `ServerMessage`: `msg` is optional on the wire. */
  datatype ServerMessage = ServerMessage(msg: Option<Msg>)

  /** `UpdateDevice`: a script's desired values for one device. */
  datatype UpdateDevice = UpdateDevice(scriptId: u32, name: string, desired: map<string, string>, qos: int)

  /** `prost_types::Timestamp` / `Duration`: seconds (i64) and nanoseconds (i32). */
  datatype Timestamp = Timestamp(seconds: int, nanos: i32)

  /** How a script run ended, as the executor reports it. */
  datatype ScriptStatusCode = StatusOk | StatusCrash

  /** The enum's number on the wire (declaration order assumed). */
  function StatusCodeNumber(c: ScriptStatusCode): int {
    match c
    case StatusOk => 0
    case StatusCrash => 1
  }

  /** `ScriptStatus` request of an executor when a script exits; `code` is
      the raw i32 field. */
  datatype ScriptStatusReport = ScriptStatusReport(
    scriptId: u32, start: Option<Timestamp>, duration: Option<Timestamp>, code: i32, message: string)

  /** gRPC status codes used by the controller. */
  datatype Code = InvalidArgument | Unknown | Internal

  /** `tonic::Status`. */
  datatype Status = Status(code: Code, message: string)

  /** prost's enum getter (`.qos()`, `.default_qos()`): an unknown number reads
      as the enum's default, the variant numbered 0. */
  function QosOrDefault(n: int): (q: QosPolicy)
    ensures 0 <= n < 3 ==> QosCode(q) == n
    ensures !(0 <= n < 3) ==> q == OnlyOnce
  {
    match QosFromCode(n)
    case Some(q) => q
    case None => OnlyOnce
  }
}
