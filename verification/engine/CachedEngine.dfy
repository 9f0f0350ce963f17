/** One engine process after another sharing a cache: any number of programs run, each under any
    schedule, and take the outcomes of their nodes from executions that go through the cache. Every
    such run is also a run without a cache, so it computes what the program's source denotes. */
module CachedEngine {
  import opened Wrappers
  import opened DataModel
  import opened EngineData
  import opened CacheKeys
  import Ast
  import Cache
  import Compilers
  import G = Graphs
  import Ir
  import Pipeline
  import Postcard
  import Resolvers
  import S = Scheduler
  import SchedulerRuns
  import SchedulerSafety
  import Source
  import opened WholeProgram

  /** A resolved program has the prelude at its fixed ids and otherwise only literals. */
  lemma ResolvedIsRegistered(disk: Ast.Disk, file: string, entry: string)
    requires Resolvers.Resolve(disk, file, entry).Ok?
    requires |Resolvers.Resolve(disk, file, entry).value.context.nodes| <= Postcard.U64_LIMIT
    ensures Cache.Registered(Resolvers.Resolve(disk, file, entry).value.context.nodes)
  {
    hide Prelude, Resolvers.GetModule;
    var end := Resolvers.GetModule(disk, Resolvers.Initial(), file).value.0;
    var first := Resolvers.Initial().nodes;
    assert Resolvers.StoresGrow(Resolvers.Initial(), end);
    assert |first| == |Prelude()| && first <= end.nodes;
    forall k | 0 <= k < |Prelude()| ensures end.nodes[k] == Prelude()[k].1 {
      assert first[k] == Prelude()[k].1;
    }
  }

  /** A program being run. */
  datatype Session = Session(program: S.Program, state: S.State)

  datatype Engine = Engine(cache: Cache.State, sessions: seq<Session>)

  /** A step of the cache, a new session, a scheduling step of a session, or a task of a session that
      ends with the outcome of an execution. */
  datatype Move =
    | CacheStep(access: Cache.Step)
    | Launch(program: S.Program)
    | Schedule(session: nat, step: S.Step)
    | Deliver(session: nat, task: S.TaskId, job: nat)

  /** Job `j` executed what task `t` of the session has to execute. */
  ghost predicate Executes(job: Cache.Job, p: S.Program, s: S.State, t: S.TaskId)
    requires S.Enabled(p, s, S.Finish(t))
  {
    var node := p.graph[s.tasks[t].node];
    job.kind == node.kind && job.impl == p.impls[node.kind] && job.inputs == S.Values(s, node.inputs)
  }

  ghost predicate Allowed(h: Hashing, e: Engine, m: Move) {
    match m
    case CacheStep(step) => Cache.Enabled(h, e.cache, step)
    case Launch(p) => S.ValidProgram(p)
    case Schedule(i, step) =>
      i < |e.sessions| && !step.Finish? && S.Enabled(e.sessions[i].program, e.sessions[i].state, step)
    case Deliver(i, t, j) =>
      && i < |e.sessions| && S.Enabled(e.sessions[i].program, e.sessions[i].state, S.Finish(t))
      && j < |e.cache.jobs| && e.cache.jobs[j].phase.Finished?
      && Executes(e.cache.jobs[j], e.sessions[i].program, e.sessions[i].state, t)
  }

  /** How a task records the outcome it was handed. */
  function Recorded(node: nat, outcome: Result<Data, Failure>): Result<Data, S.Error> {
    match outcome
    case Ok(d) => Ok(d)
    case Err(f) => Err(S.Own(node, f))
  }

  function Perform(h: Hashing, world: World, e: Engine, m: Move): Engine
    requires Allowed(h, e, m)
  {
    match m
    case CacheStep(step) => e.(cache := Cache.Apply(h, world, e.cache, step))
    case Launch(p) => e.(sessions := e.sessions + [Session(p, S.Initial(p))])
    case Schedule(i, step) =>
      var x := e.sessions[i];
      e.(sessions := e.sessions[i := x.(state := S.Apply(world, x.program, x.state, step))])
    case Deliver(i, t, j) =>
      var x := e.sessions[i];
      var outcome := Recorded(x.state.tasks[t].node, e.cache.jobs[j].phase.outcome);
      e.(sessions := e.sessions[i := x.(state := S.Complete(x.state, t, outcome))])
  }

  ghost predicate History(h: Hashing, world: World, e: Engine, moves: seq<Move>, end: Engine)
    decreases |moves|
  {
    if moves == [] then e == end
    else Allowed(h, e, moves[0]) && History(h, world, Perform(h, world, e, moves[0]), moves[1..], end)
  }

  /** The session's state can be reached without any cache. */
  ghost predicate Uncached(world: World, x: Session) {
    S.ValidProgram(x.program) && exists steps :: S.Runs(world, x.program, S.Initial(x.program), steps, x.state)
  }

  ghost predicate Inv(h: Hashing, world: World, e: Engine) {
    Cache.Inv(h, world, e.cache) && forall i :: 0 <= i < |e.sessions| ==> Uncached(world, e.sessions[i])
  }

  lemma {:induction false} RunsOn(world: World, p: S.Program, s: S.State, steps: seq<S.Step>, end: S.State,
                                  step: S.Step)
    requires S.Runs(world, p, s, steps, end) && S.Enabled(p, end, step)
    ensures S.Runs(world, p, s, steps + [step], S.Apply(world, p, end, step))
    decreases |steps|
  {
    hide S.Enabled, S.Apply;
    if steps == [] {
      assert S.Runs(world, p, S.Apply(world, p, end, step), [], S.Apply(world, p, end, step));
      assert ([step])[1..] == [];
      assert steps + [step] == [step];
    } else {
      RunsOn(world, p, S.Apply(world, p, s, steps[0]), steps[1..], end, step);
      assert (steps + [step])[1..] == steps[1..] + [step];
    }
  }

  lemma UncachedStep(world: World, x: Session, step: S.Step)
    requires Uncached(world, x) && S.Enabled(x.program, x.state, step)
    ensures Uncached(world, x.(state := S.Apply(world, x.program, x.state, step)))
  {
    hide S.Enabled, S.Apply, S.Runs;
    var steps :| S.Runs(world, x.program, S.Initial(x.program), steps, x.state);
    RunsOn(world, x.program, S.Initial(x.program), steps, x.state, step);
  }

  lemma MoveInv(h: Hashing, world: World, e: Engine, m: Move)
    requires FixedLength(h) && Apart(h, e.cache.hashed) && Inv(h, world, e) && Allowed(h, e, m)
    ensures Inv(h, world, Perform(h, world, e, m))
  {
    hide FixedLength, Apart, Cache.Enabled, Cache.Apply, Cache.Honest, Cache.JobSound, Uncached, S.Enabled, S.Apply,
         S.Complete, Execute;
    match m
    case CacheStep(step) => Cache.StepInv(h, world, e.cache, step);
    case Launch(p) => LaunchUncached(world, p);
    case Schedule(i, step) => UncachedStep(world, e.sessions[i], step);
    case Deliver(i, t, j) =>
      DeliveredIsFinish(h, world, e, i, t, j);
      UncachedStep(world, e.sessions[i], S.Finish(t));
  }

  lemma LaunchUncached(world: World, p: S.Program)
    requires S.ValidProgram(p)
    ensures Uncached(world, Session(p, S.Initial(p)))
  {
    assert S.Runs(world, p, S.Initial(p), [], S.Initial(p));
  }

  /** A delivered outcome is the one that executing the node without a cache would record. */
  lemma DeliveredIsFinish(h: Hashing, world: World, e: Engine, i: nat, t: S.TaskId, j: nat)
    requires Inv(h, world, e) && Allowed(h, e, Deliver(i, t, j))
    ensures S.Complete(e.sessions[i].state, t,
                       Recorded(e.sessions[i].state.tasks[t].node, e.cache.jobs[j].phase.outcome))
            == S.Apply(world, e.sessions[i].program, e.sessions[i].state, S.Finish(t))
  {
    hide Cache.Honest, Uncached, S.Complete, Execute;
    assert Cache.JobSound(h, world, e.cache.hashed, e.cache.jobs[j]);
  }

  lemma {:induction false} HistoryHashes(h: Hashing, world: World, e: Engine, moves: seq<Move>, end: Engine)
    requires History(h, world, e, moves, end)
    ensures e.cache.hashed <= end.cache.hashed
    decreases |moves|
  {
    hide S.Enabled, S.Apply, S.Complete, Cache.Enabled, Hashed, Fed;
    if moves != [] { HistoryHashes(h, world, Perform(h, world, e, moves[0]), moves[1..], end); }
  }

  lemma {:induction false} HistoryInv(h: Hashing, world: World, e: Engine, moves: seq<Move>, end: Engine)
    requires FixedLength(h) && Apart(h, end.cache.hashed) && Inv(h, world, e) && History(h, world, e, moves, end)
    ensures Inv(h, world, end)
    decreases |moves|
  {
    hide FixedLength, Inv, Allowed, Perform;
    if moves != [] {
      HistoryHashes(h, world, e, moves, end);
      MoveInv(h, world, e, moves[0]);
      HistoryInv(h, world, Perform(h, world, e, moves[0]), moves[1..], end);
    }
  }

  function Cold(): Engine {
    Engine(Cache.Cold(), [])
  }

  /** Whatever ran before it and runs beside it on the same cache, a session that can go no further
      has the value of the term that its source denotes, and fails exactly if that term has none. */
  lemma CachedRunComputesTheSource(h: Hashing, world: World, moves: seq<Move>, end: Engine, i: nat, disk: Ast.Disk,
                                   file: string, entry: string, out: Compilers.Compiled)
    requires FixedLength(h) && Apart(h, end.cache.hashed)
    requires History(h, world, Cold(), moves, end) && i < |end.sessions|
    requires Pipeline.Faithful(disk, file, entry, Ok(out)) && end.sessions[i].program == ProgramOf(out)
    requires forall step :: !S.Enabled(ProgramOf(out), end.sessions[i].state, step)
    ensures Settles(world, end.sessions[i].state, out.start, Source.Program(disk, file, entry))
  {
    hide FixedLength, Apart, S.Runs, S.Enabled, Pipeline.Faithful, History, Source.Program, Eval;
    HistoryInv(h, world, Cold(), moves, end);
    assert Uncached(world, end.sessions[i]);
    var steps :| S.Runs(world, ProgramOf(out), S.Initial(ProgramOf(out)), steps, end.sessions[i].state);
    RunComputesTheSource(disk, file, entry, out, world, steps, end.sessions[i].state);
  }

  /** The start node is done with the value of the program's term, or with an error if it has none. */
  ghost predicate Settles(world: World, s: S.State, start: nat, program: Result<Val, Ir.Fault>) {
    && program.Ok? && start < |s.cells| && s.cells[start].Done?
    && (S.IsOk(s, start) <==> Eval(world, program.value.term).Some?)
    && (S.IsOk(s, start) ==> Eval(world, program.value.term) == Some(s.cells[start].outcome.value))
  }

  lemma {:induction false} HistoryJoined(h: Hashing, world: World, e: Engine, a: seq<Move>, middle: Engine,
                                         b: seq<Move>, end: Engine)
    requires History(h, world, e, a, middle) && History(h, world, middle, b, end)
    ensures History(h, world, e, a + b, end)
    decreases |a|
  {
    hide Allowed, Perform;
    if a == [] {
      assert a + b == b;
    } else {
      assert (a + b)[0] == a[0] && (a + b)[1..] == a[1..] + b;
      HistoryJoined(h, world, Perform(h, world, e, a[0]), a[1..], middle, b, end);
    }
  }

  lemma OneMove(h: Hashing, world: World, e: Engine, m: Move)
    requires Allowed(h, e, m)
    ensures History(h, world, e, [m], Perform(h, world, e, m))
  {
    hide Allowed, Perform;
    assert [m][1..] == [];
    assert History(h, world, Perform(h, world, e, m), [], Perform(h, world, e, m));
  }

  /** Job `j` has executed the node, and no session has moved. */
  ghost predicate HasExecuted(before: Engine, after: Engine, j: nat, impl: NodeImpl, kind: nat, inputs: seq<Data>) {
    && after.sessions == before.sessions && j < |after.cache.jobs| && after.cache.jobs[j].phase.Finished?
    && after.cache.jobs[j].impl == impl && after.cache.jobs[j].kind == kind && after.cache.jobs[j].inputs == inputs
  }

  /** Any node can be executed, whatever is in the cache. */
  lemma CanExecute(h: Hashing, world: World, e: Engine, nodes: seq<NodeImpl>, kind: nat, inputs: seq<Data>)
    returns (moves: seq<Move>, end: Engine)
    requires Cache.Registered(nodes) && kind < |nodes| && |inputs| < Postcard.U64_LIMIT
    ensures History(h, world, e, moves, end) && HasExecuted(e, end, |e.cache.jobs|, nodes[kind], kind, inputs)
  {
    hide Cache.Registered, Cache.ShouldBeCached, Hashed, Fed, Execute, History;
    assert kind < Postcard.U64_LIMIT by { RegisteredFits(nodes); }
    var j := |e.cache.jobs|;
    moves := [CacheStep(Cache.Begin(nodes, kind, inputs))];
    OneMove(h, world, e, moves[0]);
    end := Perform(h, world, e, moves[0]);
    if end.cache.jobs[j].phase.Asking? {
      moves, end := ThenStep(h, world, e, moves, end, Cache.Look(j, None, false));
    }
    moves, end := ThenStep(h, world, e, moves, end, Cache.Work(j));
    if end.cache.jobs[j].phase.Storing? {
      moves, end := ThenStep(h, world, e, moves, end, Cache.Store(j, None));
    }
  }

  lemma RegisteredFits(nodes: seq<NodeImpl>)
    requires Cache.Registered(nodes)
    ensures |nodes| <= Postcard.U64_LIMIT
  {
  }

  lemma ThenStep(h: Hashing, world: World, e: Engine, before: seq<Move>, middle: Engine, step: Cache.Step)
    returns (moves: seq<Move>, end: Engine)
    requires History(h, world, e, before, middle) && Cache.Enabled(h, middle.cache, step)
    ensures History(h, world, e, moves, end) && end == middle.(cache := Cache.Apply(h, world, middle.cache, step))
  {
    hide History, Cache.Enabled, Cache.Apply;
    OneMove(h, world, middle, CacheStep(step));
    end := Perform(h, world, middle, CacheStep(step));
    moves := before + [CacheStep(step)];
    HistoryJoined(h, world, e, before, middle, [CacheStep(step)], end);
  }

  /** A program as the compiler makes it. */
  ghost predicate Launchable(p: S.Program) {
    && Cache.Registered(p.impls)
    && forall n :: 0 <= n < |p.graph| ==> |p.graph[n].inputs| < Postcard.U64_LIMIT
  }

  /** Session `i` has come closer to its end, and the others are as before. */
  ghost predicate Closer(before: Engine, after: Engine, i: nat)
    requires i < |before.sessions|
  {
    && |after.sessions| == |before.sessions|
    && after.sessions == before.sessions[i := before.sessions[i].(state := after.sessions[i].state)]
    && SchedulerRuns.Rank(after.sessions[i].state) < SchedulerRuns.Rank(before.sessions[i].state)
  }

  lemma UncachedInv(world: World, x: Session)
    requires Uncached(world, x)
    ensures SchedulerSafety.Inv(world, x.program, x.state)
  {
    hide S.Runs, SchedulerSafety.Inv;
    var steps :| S.Runs(world, x.program, S.Initial(x.program), steps, x.state);
    SchedulerSafety.InitialInv(world, x.program);
    SchedulerRuns.RunInv(world, x.program, S.Initial(x.program), steps, x.state);
  }

  /** Until the start node of a session is done, some moves bring the session forward, without a cache
      hit and without any other session moving. */
  lemma MovesOn(h: Hashing, world: World, e: Engine, i: nat) returns (moves: seq<Move>, end: Engine)
    requires i < |e.sessions| && Uncached(world, e.sessions[i]) && Launchable(e.sessions[i].program)
    requires !StartIsDone(e.sessions[i])
    ensures History(h, world, e, moves, end) && Closer(e, end, i)
  {
    hide S.Enabled, S.Apply, S.Complete, S.Runs, History, SchedulerRuns.Rank, SchedulerSafety.Inv, Cache.Registered,
         Execute, Uncached;
    var x := e.sessions[i];
    UncachedInv(world, x);
    StartExists(world, x);
    var step := SchedulerRuns.NotStuck(world, x.program, x.state);
    if step.Finish? {
      moves, end := CanFinish(h, world, e, i, step.task);
    } else {
      SchedulerRuns.StepRank(world, x.program, x.state, step);
      OneMove(h, world, e, Schedule(i, step));
      moves, end := [Schedule(i, step)], Perform(h, world, e, Schedule(i, step));
    }
  }

  lemma CanFinish(h: Hashing, world: World, e: Engine, i: nat, t: S.TaskId) returns (moves: seq<Move>, end: Engine)
    requires i < |e.sessions| && Launchable(e.sessions[i].program)
    requires SchedulerSafety.Inv(world, e.sessions[i].program, e.sessions[i].state)
    requires S.Enabled(e.sessions[i].program, e.sessions[i].state, S.Finish(t))
    ensures History(h, world, e, moves, end) && Closer(e, end, i)
  {
    hide S.Complete, S.Runs, History, SchedulerRuns.Rank, Cache.Registered, Execute, SchedulerSafety.Correct,
         SchedulerSafety.Spawned, SchedulerSafety.InPhase, SchedulerSafety.OnlyNeeded;
    var x := e.sessions[i];
    var node := x.program.graph[x.state.tasks[t].node];
    var before, middle := CanExecute(h, world, e, x.program.impls, node.kind, S.Values(x.state, node.inputs));
    var j := |e.cache.jobs|;
    var m := Deliver(i, t, j);
    OneMove(h, world, middle, m);
    moves, end := before + [m], Perform(h, world, middle, m);
    HistoryJoined(h, world, e, before, middle, [m], end);
    SchedulerRuns.CompleteRank(x.program, x.state, t,
                               Recorded(x.state.tasks[t].node, middle.cache.jobs[j].phase.outcome));
  }

  /** Whatever has happened, some moves finish the session, unless hashing collides on the way. */
  lemma {:induction false} CanBeFinished(h: Hashing, world: World, e: Engine, i: nat)
    returns (moves: seq<Move>, end: Engine)
    requires FixedLength(h) && Apart(h, e.cache.hashed) && Inv(h, world, e)
    requires i < |e.sessions| && Launchable(e.sessions[i].program)
    ensures History(h, world, e, moves, end) && i < |end.sessions| && end.sessions[i].program == e.sessions[i].program
    ensures Apart(h, end.cache.hashed) ==> StartIsDone(end.sessions[i])
    decreases SchedulerRuns.Rank(e.sessions[i].state)
  {
    hide FixedLength, Apart, Launchable, Uncached, SchedulerRuns.Rank, SchedulerSafety.Inv, History, Cache.Inv;
    if StartIsDone(e.sessions[i]) {
      moves, end := [], e;
      assert History(h, world, e, [], e) by { NoMoves(h, world, e); }
    } else {
      moves, end := MovesOn(h, world, e, i);
      if Apart(h, end.cache.hashed) {
        HistoryInv(h, world, e, moves, end);
        var more, last := CanBeFinished(h, world, end, i);
        HistoryJoined(h, world, e, moves, end, more, last);
        moves, end := moves + more, last;
      }
    }
  }

  lemma NoMoves(h: Hashing, world: World, e: Engine)
    ensures History(h, world, e, [], e)
  {
  }

  ghost predicate StartIsDone(x: Session) {
    x.program.start < |x.state.cells| && x.state.cells[x.program.start].Done?
  }

  lemma StartExists(world: World, x: Session)
    requires SchedulerSafety.Inv(world, x.program, x.state)
    ensures x.program.start < |x.state.cells|
  {
  }
}
