/** What the builtin nodes do with their inputs: joining concatenates, gathering and waiting pass a value
    on, settings are changed one at a time, and the container engine's answers are put in the place of
    the container that was asked about. */
module NodeLaws {
  import opened Wrappers
  import opened DataModel
  import opened EngineData
  import opened Configs

  /** Joining nothing, or one string. */
  lemma JoinOne(world: World, s: string)
    ensures Execute(world, Join, []) == Ok(StringData(""))
    ensures Execute(world, Join, [StringData(s)]) == Ok(StringData(s))
  {
    assert [StringData(s)][1..] == [] && s + "" == s;
  }

  /** Joining two lists of inputs is joining each and concatenating the results in this order. */
  lemma {:induction false} JoinAppends(world: World, xs: seq<Data>, ys: seq<Data>)
    ensures Execute(world, Join, xs + ys)
         == match (Execute(world, Join, xs), Execute(world, Join, ys))
            case (Ok(a), Ok(b)) => Ok(StringData(a.str + b.str))
            case _ => Err(TypeMismatchAtRuntime)
    decreases |xs|
  {
    JoinedIsString(world, xs);
    JoinedIsString(world, ys);
    if xs == [] {
      assert xs + ys == ys;
      var all := Execute(world, Join, ys);
      if all.Ok? { assert "" + all.value.str == all.value.str; }
    } else {
      assert (xs + ys)[0] == xs[0] && (xs + ys)[1..] == xs[1..] + ys;
      JoinAppends(world, xs[1..], ys);
      JoinedIsString(world, xs[1..]);
      if xs[0].StringData? && JoinAll(xs[1..]).Ok? && JoinAll(ys).Ok? {
        var a, b, c := xs[0].str, JoinAll(xs[1..]).value, JoinAll(ys).value;
        assert (a + b) + c == a + (b + c);
      }
    }
  }

  lemma {:induction false} JoinedIsString(world: World, xs: seq<Data>)
    ensures Execute(world, Join, xs).Ok? ==> Execute(world, Join, xs).value.StringData?
    ensures Execute(world, Join, xs).Err? ==> Execute(world, Join, xs).error == TypeMismatchAtRuntime
    ensures Execute(world, Join, xs).Ok? <==> forall i :: 0 <= i < |xs| ==> xs[i].StringData?
    decreases |xs|
  {
    if xs != [] { JoinedIsString(world, xs[1..]); }
  }

  /** All and Noop yield their first input, and a literal itself. */
  lemma PassedOn(world: World, d: Data, rest: seq<Data>, n: int, text: string)
    ensures Execute(world, All, [d] + rest) == Execute(world, Noop, [d] + rest) == Ok(d)
    ensures Execute(world, LiteralNode(IntLit(n)), []) == Ok(IntData(n))
    ensures Execute(world, LiteralNode(StrLit(text)), []) == Ok(StringData(text))
  {
  }

  /** A value that is waited for: it is there if and only if everything waited for is, and it is the same. */
  lemma WaitedValue(world: World, t: Term, phantoms: seq<Term>)
    ensures Eval(world, Term(Noop, [t], phantoms))
         == if forall i :: 0 <= i < |phantoms| ==> Eval(world, phantoms[i]).Some? then Eval(world, t) else None
  {
    var inputs := [t];
    assert inputs[1..] == [];
    assert EvalAll(world, []) == Some([]);
  }

  /** The engine's containers come back in the variant of the input, with its service settings; its
      failures are the node's. */
  lemma ContainersAreRebuilt(world: World, c: ContainerState, s: ServiceState, command: string, files: FileSystem)
    ensures Execute(world, Wrap(RunCommand), [ContainerData(c), StringData(command)])
         == match world.exec(c, command)
            case Ok(x) => Ok(ContainerData(x))
            case Err(message) => Err(NodeFailed(message))
    ensures Execute(world, Wrap(RunCommand), [ServiceData(s), StringData(command)])
         == match world.exec(s.container, command)
            case Ok(x) => Ok(ServiceData(ServiceState(x, s.serviceConfig)))
            case Err(message) => Err(NodeFailed(message))
    ensures Execute(world, Wrap(CopyInto), [ContainerData(c), FileSystemData(files), StringData(command)])
         == match world.copyInto(c, files, command)
            case Ok(x) => Ok(ContainerData(x))
            case Err(message) => Err(NodeFailed(message))
    ensures Execute(world, Wrap(CopyInto), [ServiceData(s), FileSystemData(files), StringData(command)])
         == match world.copyInto(s.container, files, command)
            case Ok(x) => Ok(ServiceData(ServiceState(x, s.serviceConfig)))
            case Err(message) => Err(NodeFailed(message))
  {
    Invoked(world, RunCommand, [ContainerData(c), StringData(command)]);
    Invoked(world, RunCommand, [ServiceData(s), StringData(command)]);
    Invoked(world, CopyInto, [ContainerData(c), FileSystemData(files), StringData(command)]);
    Invoked(world, CopyInto, [ServiceData(s), FileSystemData(files), StringData(command)]);
  }

  /** On accepted inputs a wrapped node does what its function does. */
  lemma Invoked(world: World, f: Wrapped, inputs: seq<Data>)
    requires |inputs| == |f.Params()| && AllAccepted(f.Params(), inputs)
    ensures Execute(world, Wrap(f), inputs)
         == match Invoke(world, f, inputs)
            case Ok(d) => Ok(d)
            case Err(message) => Err(NodeFailed(message))
  {
    hide Invoke;
    assert inputs[..|f.Params()|] == inputs;
  }

  /** Everything else that the engine or the host answers is the node's value, its failure the node's. */
  lemma AnswersAreReturned(world: World, d: Data, text: string, files: FileSystem)
    requires d.ContainerData? || d.ServiceData?
    ensures var c := if d.ContainerData? then d.container else d.service.container;
      && Execute(world, Wrap(PullImage), [StringData(text)])
         == (match world.pullImage(text) case Ok(x) => Ok(ContainerData(x)) case Err(m) => Err(NodeFailed(m)))
      && Execute(world, Wrap(PullService), [StringData(text)])
         == (match world.pullService(text) case Ok(x) => Ok(ServiceData(x)) case Err(m) => Err(NodeFailed(m)))
      && Execute(world, Wrap(CommandOutput), [d, StringData(text)])
         == (match world.execOutput(c, text) case Ok(x) => Ok(StringData(x)) case Err(m) => Err(NodeFailed(m)))
      && Execute(world, Wrap(ExportPath), [d, StringData(text)])
         == (match world.exportPath(c, text) case Ok(x) => Ok(FileSystemData(x)) case Err(m) => Err(NodeFailed(m)))
    ensures Execute(world, Wrap(ReadHost), [StringData(text)])
         == (match world.readHost(text) case Ok(x) => Ok(FileSystemData(x)) case Err(m) => Err(NodeFailed(m)))
    ensures Execute(world, Wrap(WriteHost), [FileSystemData(files), StringData(text)])
         == (match world.writeHost(files, text) case Ok(_) => Ok(IntData(0)) case Err(m) => Err(NodeFailed(m)))
    ensures Execute(world, Wrap(EscapeShell), [StringData(text)]) == Ok(StringData(world.quote(text)))
  {
    Invoked(world, PullImage, [StringData(text)]);
    Invoked(world, PullService, [StringData(text)]);
    Invoked(world, CommandOutput, [d, StringData(text)]);
    Invoked(world, ExportPath, [d, StringData(text)]);
    Invoked(world, ReadHost, [StringData(text)]);
    Invoked(world, WriteHost, [FileSystemData(files), StringData(text)]);
    Invoked(world, EscapeShell, [StringData(text)]);
  }

  /** Changing the directory twice ends where the second directory leads from the first, and changes nothing else. */
  lemma DirectoriesJoin(world: World, d: Data, first: string, second: string)
    requires d.ContainerData? || d.ServiceData?
    ensures var at := Execute(world, Wrap(ChangeDir), [d, StringData(first)]);
      at.Ok? && at.value.Type() == d.Type() &&
      var then_ := Execute(world, Wrap(ChangeDir), [at.value, StringData(second)]);
      then_.Ok? && Changed(d, then_.value,
        Config(d).(workingDir := world.join(world.join(Config(d).workingDir, first), second)))
  {
    Invoked(world, ChangeDir, [d, StringData(first)]);
    var at := Execute(world, Wrap(ChangeDir), [d, StringData(first)]).value;
    Invoked(world, ChangeDir, [at, StringData(second)]);
  }

  function Config(d: Data): ContainerConfig
    requires d.ContainerData? || d.ServiceData?
  {
    match d
    case ContainerData(c) => c.config
    case ServiceData(s) => s.container.config
  }

  /** `after` is the same container or service as `before`, except for its configuration. */
  ghost predicate Changed(before: Data, after: Data, config: ContainerConfig)
    requires before.ContainerData? || before.ServiceData?
  {
    match before
    case ContainerData(c) => after == ContainerData(ContainerState(c.snapshot, config))
    case ServiceData(s) =>
      after == ServiceData(ServiceState(ContainerState(s.container.snapshot, config), s.serviceConfig))
  }

  /** The last user that was set is the user, and nothing else changes. */
  lemma UserIsSet(world: World, d: Data, user: string)
    requires d.ContainerData? || d.ServiceData?
    ensures var after := Execute(world, Wrap(ChangeUser), [d, StringData(user)]);
      after.Ok? && Changed(d, after.value, Config(d).(user := Some(user)))
  {
    Invoked(world, ChangeUser, [d, StringData(user)]);
  }

  function Attached(services: seq<NamedService>, name: string): Option<ServiceState> {
    if services == [] then None
    else if services[0].name == name then Some(services[0].service)
    else Attached(services[1..], name)
  }

  ghost predicate SortedServices(services: seq<NamedService>) {
    forall i, j :: 0 <= i < j < |services| ==> Before(services[i].name, services[j].name)
  }

  predicate HasService(services: seq<NamedService>, name: string) {
    exists j :: 0 <= j < |services| && services[j].name == name
  }

  lemma {:induction false} AttachThenFind(services: seq<NamedService>, name: string, service: ServiceState,
                                          other: string)
    ensures Attached(SetService(services, name, service), other)
         == if other == name then Some(service) else Attached(services, other)
    decreases |services|
  {
    hide Before;
    if services != [] && !Before(name, services[0].name) && services[0].name != name {
      AttachThenFind(services[1..], name, service, other);
    }
  }

  lemma {:induction false} AttachKeepsSorted(services: seq<NamedService>, name: string, service: ServiceState)
    requires SortedServices(services)
    ensures SortedServices(SetService(services, name, service))
    ensures forall i :: 0 <= i < |SetService(services, name, service)| ==>
              SetService(services, name, service)[i].name == name
              || HasService(services, SetService(services, name, service)[i].name)
    decreases |services|
  {
    hide Before;
    if services != [] && Before(name, services[0].name) {
      forall i | 0 < i < |services| ensures Before(name, services[i].name) {
        BeforeTransitive(name, services[0].name, services[i].name);
      }
    } else if services != [] && services[0].name != name {
      BeforeOrNot(name, services[0].name);
      AttachKeepsSorted(services[1..], name, service);
    }
  }

  /** A service that is attached is found under its hostname, in the place of one that had it; all others
      stay, the list stays in the order of hostnames, and nothing else changes. */
  lemma ServiceIsAttached(world: World, d: Data, service: ServiceState, name: string, other: string)
    requires d.ContainerData? || d.ServiceData?
    ensures var after := Execute(world, Wrap(AttachService), [d, ServiceData(service), StringData(name)]);
      && after.Ok? && after.value.Type() == d.Type()
      && Changed(d, after.value, Config(d).(services := Config(after.value).services))
      && Attached(Config(after.value).services, other)
         == (if other == name then Some(service) else Attached(Config(d).services, other))
      && (SortedServices(Config(d).services) ==> SortedServices(Config(after.value).services))
  {
    Invoked(world, AttachService, [d, ServiceData(service), StringData(name)]);
    AttachThenFind(Config(d).services, name, service, other);
    if SortedServices(Config(d).services) { AttachKeepsSorted(Config(d).services, name, service); }
  }

  /** A container that becomes a service has a health check that succeeds at once; setting another replaces
      command and timeout, if the timeout is a 64-bit number of seconds, and fails otherwise. */
  lemma HealthcheckIsSet(world: World, c: ContainerState, entrypoint: string, s: ServiceState, command: string,
                         seconds: int)
    ensures Execute(world, Wrap(IntoService), [ContainerData(c), StringData(entrypoint)])
         == Ok(ServiceData(ServiceState(c, ServiceConfig(entrypoint, "exit 0", Duration(1, 0)))))
    ensures Execute(world, Wrap(SetHealthcheck), [ServiceData(s), StringData(command), IntData(seconds)])
         == if 0 <= seconds < 0x1_0000_0000_0000_0000 then
              Ok(ServiceData(ServiceState(s.container,
                                          ServiceConfig(s.serviceConfig.entrypoint, command, Duration(seconds, 0)))))
            else Err(NodeFailed("healthcheck timeout"))
  {
    Invoked(world, IntoService, [ContainerData(c), StringData(entrypoint)]);
    Invoked(world, SetHealthcheck, [ServiceData(s), StringData(command), IntData(seconds)]);
  }
}
