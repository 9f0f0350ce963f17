/** Runtime values, and what executing one node does with the values of its inputs. */
module EngineData {
  import opened Wrappers
  import opened DataModel

  newtype byte = b: int | 0 <= b < 256

  /** A whole number of seconds and the rest in nanoseconds. */
  datatype Duration = Duration(secs: nat, nanos: nat)

  /** Sorted maps are the sequence of their entries in key order. */
  datatype ContainerConfig = ContainerConfig(
    env: seq<(string, string)>,
    workingDir: seq<byte>,
    user: Option<string>,
    services: seq<NamedService>)

  datatype NamedService = NamedService(name: string, service: ServiceState)

  datatype ContainerState = ContainerState(snapshot: string, config: ContainerConfig)

  datatype ServiceConfig = ServiceConfig(entrypoint: string, command: string, timeout: Duration)

  datatype ServiceState = ServiceState(container: ContainerState, serviceConfig: ServiceConfig)

  /** A file or folder, identified by the bytes of its stream. */
  datatype FileSystem = FileSystem(stream: seq<byte>)

  datatype Data =
    | IntData(int_: int)
    | StringData(str: string)
    | ContainerData(container: ContainerState)
    | ServiceData(service: ServiceState)
    | FileSystemData(files: FileSystem)
  {
    function Type(): DataType {
      match this
      case IntData(_) => Int
      case StringData(_) => String
      case ContainerData(_) => Container
      case ServiceData(_) => Service
      case FileSystemData(_) => DataType.FileSystem
    }
  }

  /** The ways in which a node's own work can fail; the first two are internal errors that a
      compiled program must never reach. */
  datatype Failure = MissingArguments | TypeMismatchAtRuntime | NodeFailed(message: string)

  /** What lies outside the program, as deterministic functions: the container engine, the host's
      files, and the libraries for paths and shell words. */
  datatype World = World(
    pullImage: string -> Result<ContainerState, string>,
    pullService: string -> Result<ServiceState, string>,
    exec: (ContainerState, string) -> Result<ContainerState, string>,
    execOutput: (ContainerState, string) -> Result<string, string>,
    readHost: string -> Result<FileSystem, string>,
    exportPath: (ContainerState, string) -> Result<FileSystem, string>,
    writeHost: (FileSystem, string) -> Result<(), string>,
    copyInto: (ContainerState, FileSystem, string) -> Result<ContainerState, string>,
    join: (seq<byte>, string) -> seq<byte>,
    quote: string -> string)

  /** Operations on either a container or a service work on the container inside. */
  function Inner(d: Data): ContainerState
    requires d.ContainerData? || d.ServiceData?
  {
    if d.ContainerData? then d.container else d.service.container
  }

  /** The same variant with another container inside. */
  function WithInner(d: Data, c: ContainerState): Data
    requires d.ContainerData? || d.ServiceData?
  {
    if d.ContainerData? then ContainerData(c) else ServiceData(d.service.(container := c))
  }

  function UpdateConfig(d: Data, update: ContainerConfig -> ContainerConfig): Data
    requires d.ContainerData? || d.ServiceData?
  {
    WithInner(d, Inner(d).(config := update(Inner(d).config)))
  }

  /** The order of strings by their characters. */
  predicate Before(a: string, b: string) {
    b != "" && (a == "" || a[0] < b[0] || (a[0] == b[0] && Before(a[1..], b[1..])))
  }

  /** Sets `key` in a map that is the sequence of its entries in key order. */
  function SetEntry(env: seq<(string, string)>, key: string, value: string): seq<(string, string)> {
    if env == [] || Before(key, env[0].0) then [(key, value)] + env
    else if env[0].0 == key then [(key, value)] + env[1..]
    else [env[0]] + SetEntry(env[1..], key, value)
  }

  function GetEntry(env: seq<(string, string)>, key: string): Option<string> {
    if env == [] then None else if env[0].0 == key then Some(env[0].1) else GetEntry(env[1..], key)
  }

  /** A variable that is not set reads as the empty string. */
  function Variable(c: ContainerState, key: string): string {
    match GetEntry(c.config.env, key)
    case Some(value) => value
    case None => ""
  }

  function SetService(services: seq<NamedService>, name: string, service: ServiceState): seq<NamedService> {
    if services == [] || Before(name, services[0].name) then [NamedService(name, service)] + services
    else if services[0].name == name then [NamedService(name, service)] + services[1..]
    else [services[0]] + SetService(services[1..], name, service)
  }

  function ToService(c: ContainerState, entrypoint: string): ServiceState {
    ServiceState(c, ServiceConfig(entrypoint, "exit 0", Duration(1, 0)))
  }

  const U64_SECONDS: nat := 0x1_0000_0000_0000_0000

  /** The container that `exec` or `copyInto` yields, put in the place of the one it was given. */
  function Rebuilt(d: Data, r: Result<ContainerState, string>): Result<Data, string>
    requires d.ContainerData? || d.ServiceData?
  {
    match r
    case Ok(c) => Ok(WithInner(d, c))
    case Err(message) => Err(message)
  }

  /** What the wrapped functions compute. */
  function Invoke(world: World, f: Wrapped, inputs: seq<Data>): Result<Data, string>
    requires |inputs| == |f.Params()| && AllAccepted(f.Params(), inputs)
  {
    assert forall i :: 0 <= i < |inputs| ==> f.Params()[i].Accepts(inputs[i].Type());
    match f
    case PullImage =>
      var c :- world.pullImage(inputs[0].str);
      Ok(ContainerData(c))
    case PullService =>
      var s :- world.pullService(inputs[0].str);
      Ok(ServiceData(s))
    case RunCommand => Rebuilt(inputs[0], world.exec(Inner(inputs[0]), inputs[1].str))
    case CommandOutput =>
      var s :- world.execOutput(Inner(inputs[0]), inputs[1].str);
      Ok(StringData(s))
    case ReadHost =>
      var files :- world.readHost(inputs[0].str);
      Ok(FileSystemData(files))
    case ExportPath =>
      var files :- world.exportPath(Inner(inputs[0]), inputs[1].str);
      Ok(FileSystemData(files))
    case WriteHost =>
      var _ :- world.writeHost(inputs[0].files, inputs[1].str);
      Ok(IntData(0))
    case CopyInto => Rebuilt(inputs[0], world.copyInto(Inner(inputs[0]), inputs[1].files, inputs[2].str))
    case ChangeDir =>
      Ok(UpdateConfig(inputs[0], (c: ContainerConfig) => c.(workingDir := world.join(c.workingDir, inputs[1].str))))
    case SetEnvVar =>
      Ok(UpdateConfig(inputs[0], (c: ContainerConfig) => c.(env := SetEntry(c.env, inputs[1].str, inputs[2].str))))
    case GetEnvVar => Ok(StringData(Variable(Inner(inputs[0]), inputs[1].str)))
    case ChangeUser => Ok(UpdateConfig(inputs[0], (c: ContainerConfig) => c.(user := Some(inputs[1].str))))
    case IntoService => Ok(ServiceData(ToService(inputs[0].container, inputs[1].str)))
    case AttachService =>
      Ok(UpdateConfig(inputs[0],
                      (c: ContainerConfig) => c.(services := SetService(c.services, inputs[2].str, inputs[1].service))))
    case SetHealthcheck =>
      if !(0 <= inputs[2].int_ < U64_SECONDS) then Err("healthcheck timeout")
      else Ok(ServiceData(inputs[0].service.(serviceConfig :=
        inputs[0].service.serviceConfig.(command := inputs[1].str, timeout := Duration(inputs[2].int_, 0)))))
    case EscapeShell => Ok(StringData(world.quote(inputs[0].str)))
  }

  function FromLiteral(l: Literal): Data {
    match l
    case IntLit(n) => IntData(n)
    case StrLit(t) => StringData(t)
  }

  function JoinAll(inputs: seq<Data>): Result<string, Failure> {
    if inputs == [] then Ok("")
    else if !inputs[0].StringData? then Err(TypeMismatchAtRuntime)
    else
      var rest :- JoinAll(inputs[1..]);
      Ok(inputs[0].str + rest)
  }

  predicate AllAccepted(params: seq<RawType>, inputs: seq<Data>)
    requires |params| <= |inputs|
  {
    forall i :: 0 <= i < |params| ==> params[i].Accepts(inputs[i].Type())
  }

  /** Executes a node on the values of its inputs. */
  function Execute(world: World, impl: NodeImpl, inputs: seq<Data>): Result<Data, Failure> {
    match impl
    case Noop => if inputs == [] then Err(MissingArguments) else Ok(inputs[0])
    case All => if inputs == [] then Err(MissingArguments) else Ok(inputs[0])
    case LiteralNode(l) => Ok(FromLiteral(l))
    case Join =>
      var s :- JoinAll(inputs);
      Ok(StringData(s))
    case Wrap(f) =>
      if |inputs| < |f.Params()| then Err(MissingArguments)
      else if !AllAccepted(f.Params(), inputs) then Err(TypeMismatchAtRuntime)
      else match Invoke(world, f, inputs[..|f.Params()|])
        case Ok(d) => Ok(d)
        case Err(message) => Err(NodeFailed(message))
  }

  /** The value of a term: every phantom and every input must have one, and then its own work must
      succeed. */
  function Eval(world: World, t: Term): Option<Data>
    decreases t, 1
  {
    var phantoms := EvalAll(world, t.phantoms);
    var inputs := EvalAll(world, t.inputs);
    if phantoms.None? || inputs.None? then None
    else match Execute(world, t.impl, inputs.value)
      case Ok(d) => Some(d)
      case Err(_) => None
  }

  function EvalAll(world: World, ts: seq<Term>): (r: Option<seq<Data>>)
    ensures r.Some? <==> forall i :: 0 <= i < |ts| ==> Eval(world, ts[i]).Some?
    ensures r.Some? ==> |r.value| == |ts| && forall i :: 0 <= i < |ts| ==> Eval(world, ts[i]) == Some(r.value[i])
    decreases ts, 0
  {
    if ts == [] then Some([])
    else
      match (Eval(world, ts[0]), EvalAll(world, ts[1..]))
      case (Some(d), Some(rest)) => Some([d] + rest)
      case _ => None
  }
}
