/** Static types, the node implementations known to the compiler, and the fully inlined terms
    that give a graph node its meaning. */
module DataModel {
  import opened Wrappers

  datatype DataType = Int | String | Container | Service | FileSystem

  /** A literal written in a source file. */
  datatype Literal = IntLit(number: int) | StrLit(text: string)

  function LiteralType(l: Literal): DataType {
    match l
    case IntLit(_) => Int
    case StrLit(_) => String
  }

  /** The Rust parameter and result types of a wrapped node function. */
  datatype RawType = RawInt | RawString | RawContainer | RawService | RawFileSystem | RawContainerLike {

    /** The canonical data type; arbitrary for the container-or-service union. */
    function Kind(): DataType {
      match this
      case RawInt => Int
      case RawString => String
      case RawContainer => Container
      case RawService => Service
      case RawFileSystem => FileSystem
      case RawContainerLike => Container
    }

    predicate Accepts(t: DataType) {
      if RawContainerLike? then t == Container || t == Service else t == Kind()
    }
  }

  /** The Rust functions that are wrapped into nodes. */
  datatype Wrapped =
    | PullImage
    | PullService
    | RunCommand
    | CommandOutput
    | ReadHost
    | ExportPath
    | WriteHost
    | CopyInto
    | ChangeDir
    | SetEnvVar
    | GetEnvVar
    | ChangeUser
    | IntoService
    | AttachService
    | SetHealthcheck
    | EscapeShell
  {
    function Params(): seq<RawType> {
      match this
      case PullImage => [RawString]
      case PullService => [RawString]
      case RunCommand => [RawContainerLike, RawString]
      case CommandOutput => [RawContainerLike, RawString]
      case ReadHost => [RawString]
      case ExportPath => [RawContainerLike, RawString]
      case WriteHost => [RawFileSystem, RawString]
      case CopyInto => [RawContainerLike, RawFileSystem, RawString]
      case ChangeDir => [RawContainerLike, RawString]
      case SetEnvVar => [RawContainerLike, RawString, RawString]
      case GetEnvVar => [RawContainerLike, RawString]
      case ChangeUser => [RawContainerLike, RawString]
      case IntoService => [RawContainer, RawString]
      case AttachService => [RawContainerLike, RawService, RawString]
      case SetHealthcheck => [RawService, RawString, RawInt]
      case EscapeShell => [RawString]
    }

    /** The type in the function's signature. */
    function Result(): RawType {
      match this
      case PullImage => RawContainer
      case PullService | IntoService | SetHealthcheck => RawService
      case CommandOutput | GetEnvVar | EscapeShell => RawString
      case ReadHost | ExportPath => RawFileSystem
      case WriteHost => RawInt
      case RunCommand | CopyInto | ChangeDir | SetEnvVar | ChangeUser | AttachService => RawContainerLike
    }

    /** Is the static type of the node that of its first argument? */
    predicate Passthrough() {
      RunCommand? || CopyInto? || ChangeDir? || SetEnvVar? || ChangeUser? || AttachService?
    }

    predicate Cached() {
      PullImage? || PullService? || RunCommand? || CommandOutput? || CopyInto?
    }
  }

  /** A node implementation. */
  datatype NodeImpl =
    | Noop
    | Join
    | All
    | LiteralNode(literal: Literal)
    | Wrap(function_: Wrapped)

  datatype Arity = Exactly(n: nat) | Between(lo: nat, hi: nat) | AtLeast(least: nat)

  datatype TypeError =
    | TypeMismatch(expected: DataType, got: DataType, index: nat)
    | ArgumentCountMismatch(arity: Arity, count: nat)

  /** The first argument, counting from `i`, that its parameter does not accept. */
  function CheckArguments(params: seq<RawType>, arguments: seq<DataType>, i: nat): (r: Result<(), TypeError>)
    requires |params| == |arguments| && i <= |params|
    ensures r.Ok? <==> forall k :: i <= k < |params| ==> params[k].Accepts(arguments[k])
    ensures r.Err? ==> r.error.TypeMismatch? && i <= r.error.index < |params|
                       && r.error.expected == params[r.error.index].Kind() && r.error.got == arguments[r.error.index]
                       && !params[r.error.index].Accepts(arguments[r.error.index])
                       && forall k :: i <= k < r.error.index ==> params[k].Accepts(arguments[k])
    decreases |params| - i
  {
    if i == |params| then Ok(())
    else if !params[i].Accepts(arguments[i]) then Err(TypeMismatch(params[i].Kind(), arguments[i], i))
    else CheckArguments(params, arguments, i + 1)
  }

  /** The first argument, counting from `i`, that is not a string. */
  function CheckStrings(arguments: seq<DataType>, i: nat): (r: Result<DataType, TypeError>)
    requires i <= |arguments|
    ensures r.Ok? <==> forall k :: i <= k < |arguments| ==> arguments[k] == String
    ensures r.Ok? ==> r.value == String
    ensures r.Err? ==> r.error.TypeMismatch? && i <= r.error.index < |arguments|
                       && r.error.expected == String != arguments[r.error.index] == r.error.got
                       && forall k :: i <= k < r.error.index ==> arguments[k] == String
    decreases |arguments| - i
  {
    if i == |arguments| then Ok(String)
    else if arguments[i] != String then Err(TypeMismatch(String, arguments[i], i))
    else CheckStrings(arguments, i + 1)
  }

  /** The static type of a node's output given its argument types. */
  function ReturnType(impl: NodeImpl, arguments: seq<DataType>): Result<DataType, TypeError> {
    match impl
    case Noop =>
      if |arguments| == 1 then Ok(arguments[0]) else Err(ArgumentCountMismatch(Exactly(1), |arguments|))
    case Join => CheckStrings(arguments, 0)
    case All =>
      if |arguments| == 0 then Err(ArgumentCountMismatch(AtLeast(1), 0)) else Ok(arguments[0])
    case LiteralNode(l) => Ok(LiteralType(l))
    case Wrap(f) =>
      if |arguments| != |f.Params()| then Err(ArgumentCountMismatch(Exactly(|f.Params()|), |arguments|))
      else
        var _ :- CheckArguments(f.Params(), arguments, 0);
        if !f.Passthrough() then Ok(f.Result().Kind())
        else if |arguments| == 0 then Err(ArgumentCountMismatch(AtLeast(1), 0))
        else Ok(arguments[0])
  }

  /** The nodes that every module sees by name, in registration order. */
  function Prelude(): seq<(string, NodeImpl)> {
    [ ("Noop", Noop),
      ("Image", Wrap(PullImage)),
      ("ImageService", Wrap(PullService)),
      ("Exec", Wrap(RunCommand)),
      ("ExecOutput", Wrap(CommandOutput)),
      ("FromHost", Wrap(ReadHost)),
      ("Export", Wrap(ExportPath)),
      ("ToHost", Wrap(WriteHost)),
      ("With", Wrap(CopyInto)),
      ("WorkingDir", Wrap(ChangeDir)),
      ("Env", Wrap(SetEnvVar)),
      ("GetEnv", Wrap(GetEnvVar)),
      ("User", Wrap(ChangeUser)),
      ("Join", Join),
      ("All", All),
      ("ToService", Wrap(IntoService)),
      ("WithService", Wrap(AttachService)),
      ("HealthCheck", Wrap(SetHealthcheck)),
      ("ShellEscape", Wrap(EscapeShell)) ]
  }

  /** A fully inlined node: what a graph node means once every input is expanded. */
  datatype Term = Term(impl: NodeImpl, inputs: seq<Term>, phantoms: seq<Term>)

  /** A term together with its static type. */
  datatype Val = Val(term: Term, type_: DataType)

  function Terms(vs: seq<Val>): (r: seq<Term>)
    ensures |r| == |vs| && forall i :: 0 <= i < |vs| ==> r[i] == vs[i].term
  {
    seq(|vs|, i requires 0 <= i < |vs| => vs[i].term)
  }

  function Types(vs: seq<Val>): (r: seq<DataType>)
    ensures |r| == |vs| && forall i :: 0 <= i < |vs| ==> r[i] == vs[i].type_
  {
    seq(|vs|, i requires 0 <= i < |vs| => vs[i].type_)
  }

  /** Applying a node implementation to arguments. */
  function ApplyBuiltin(impl: NodeImpl, args: seq<Val>, phantoms: seq<Term>): Result<Val, TypeError> {
    var t :- ReturnType(impl, Types(args));
    Ok(Val(Term(impl, Terms(args), phantoms), t))
  }

  /** The value of a custom call whose body returned `v`: waiting on phantoms wraps it in a Noop. */
  function AfterPhantoms(v: Val, phantoms: seq<Term>): Val {
    if phantoms == [] then v else Val(Term(Noop, [v.term], phantoms), v.type_)
  }
}
