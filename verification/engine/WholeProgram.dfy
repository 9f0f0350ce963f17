/** The whole path from source files to a run: the value that any run settles on is the value of the
    term the source denotes, and no run meets an internal type error. */
module WholeProgram {
  import opened Wrappers
  import opened DataModel
  import opened EngineData
  import opened Scheduler
  import opened SchedulerSafety
  import opened SchedulerRuns
  import opened TypeSoundness
  import Ast
  import Ir
  import Source
  import Resolvers
  import Compilers
  import Pipeline
  import G = Graphs

  /** Running the program that the compiler produced. */
  function ProgramOf(out: Compilers.Compiled): Program {
    Program(out.nodes, out.graph, out.start)
  }

  /** Source, graph and run agree: a run of the compiled program that can go no further has the value
      of the term that the source denotes, and fails exactly if that term has none. */
  lemma RunComputesTheSource(disk: Ast.Disk, file: string, entry: string, out: Compilers.Compiled, world: World,
                             steps: seq<Step>, end: State)
    requires Pipeline.Faithful(disk, file, entry, Ok(out))
    requires Runs(world, ProgramOf(out), Initial(ProgramOf(out)), steps, end)
    requires forall step :: !Enabled(ProgramOf(out), end, step)
    ensures Source.Program(disk, file, entry).Ok? && out.start < |end.cells| && end.cells[out.start].Done?
    ensures IsOk(end, out.start) <==> Eval(world, Source.Program(disk, file, entry).value.term).Some?
    ensures IsOk(end, out.start) ==>
              Eval(world, Source.Program(disk, file, entry).value.term) == Some(end.cells[out.start].outcome.value)
  {
    hide Resolvers.Resolve, Source.Program, Eval, Runs, Enabled;
    EveryScheduleAgrees(world, ProgramOf(out), steps, end);
  }

  /** Every node that a well-typed start node needs is well typed. */
  lemma {:induction false} NeededTyped(p: Program, node: nat)
    requires ValidProgram(p) && node < |p.graph| && Needed(p, node) && TypeOf(G.Unfold(p.impls, p.graph, p.start)).Some?
    ensures TypeOf(G.Unfold(p.impls, p.graph, node)).Some?
    decreases |p.graph| - node
  {
    if node != p.start {
      var k :| node < k < |p.graph| && (node in p.graph[k].inputs || node in p.graph[k].phantoms) && Needed(p, k);
      NeededTyped(p, k);
      var t := G.Unfold(p.impls, p.graph, k);
      if i :| 0 <= i < |p.graph[k].inputs| && p.graph[k].inputs[i] == node {
        assert t.inputs[i] == G.Unfold(p.impls, p.graph, node);
      } else {
        var i :| 0 <= i < |p.graph[k].phantoms| && p.graph[k].phantoms[i] == node;
        assert t.phantoms[i] == G.Unfold(p.impls, p.graph, node);
      }
    }
  }

  /** Whenever a node's own work runs, in any run of a compiled program, its inputs match its declared
      parameters: it neither misses arguments nor finds a wrong type, and its value has the static type. */
  lemma NoInternalErrors(disk: Ast.Disk, file: string, entry: string, out: Compilers.Compiled, world: World,
                         steps: seq<Step>, end: State, t: TaskId)
    requires Pipeline.Faithful(disk, file, entry, Ok(out))
    requires Runs(world, ProgramOf(out), Initial(ProgramOf(out)), steps, end)
    requires Enabled(ProgramOf(out), end, Finish(t))
    ensures WorksSoundly(world, ProgramOf(out), end, t)
  {
    hide Runs, Source.Program, Ir.Meaning, EvalAll, Needed, TypeOf, Execute, Resolvers.Resolve, WorksSoundly;
    var p := ProgramOf(out);
    var node := end.tasks[t].node;
    Pipeline.ResolutionPreservesMeaning(disk, file, entry);
    ProgramTyped(Resolvers.Resolve(disk, file, entry).value);
    InitialInv(world, p);
    RunInv(world, p, Initial(p), steps, end);
    FinishIsRunning(world, p, end, t);
    WorkingSees(world, p, end, t);
    WorkStartsLast(world, p, steps, end, t);
    NeededTyped(p, node);
    OwnSound(world, p, end, t);
  }

  ghost function StaticType(p: Program, node: nat): Option<DataType> {
    if ValidProgram(p) && node < |p.graph| then TypeOf(G.Unfold(p.impls, p.graph, node)) else None
  }

  /** The work of task `t` ends with a value of the node's static type or with an error of the wrapped
      function itself. */
  ghost predicate WorksSoundly(world: World, p: Program, s: State, t: TaskId)
    requires Enabled(p, s, Finish(t))
  {
    match OwnOutcome(world, p, s, t)
    case Ok(d) => StaticType(p, s.tasks[t].node) == Some(d.Type())
    case Err(e) => e.Own? && e.node == s.tasks[t].node && e.failure.NodeFailed?
  }

  lemma OwnSound(world: World, p: Program, s: State, t: TaskId)
    requires ValidProgram(p) && Enabled(p, s, Finish(t))
    requires StaticType(p, s.tasks[t].node).Some?
    requires EvalAll(world, G.Unfold(p.impls, p.graph, s.tasks[t].node).phantoms).Some?
    requires EvalAll(world, G.Unfold(p.impls, p.graph, s.tasks[t].node).inputs)
         == Some(Values(s, p.graph[s.tasks[t].node].inputs))
    ensures WorksSoundly(world, p, s, t)
  {
    hide EvalAll, TypeOf, Execute;
    var node := s.tasks[t].node;
    var term := G.Unfold(p.impls, p.graph, node);
    NodeSound(world, term, Values(s, p.graph[node].inputs));
    EvalSound(world, term);
    EvalIs(world, term, Values(s, p.graph[node].inputs));
  }

  lemma EvalIs(world: World, term: Term, inputs: seq<Data>)
    requires EvalAll(world, term.phantoms).Some? && EvalAll(world, term.inputs) == Some(inputs)
    ensures Execute(world, term.impl, inputs).Ok? ==> Eval(world, term) == Some(Execute(world, term.impl, inputs).value)
  {
  }
}
