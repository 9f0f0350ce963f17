/** The concurrent scheduler as a state machine. Every node has a once-cell; a consumer that awaits
    an empty cell spawns the task that fills it; the consumers of a busy cell wait. A fail-fast
    consumer that sees an error drops its other awaits, which aborts the tasks it spawned, theirs in
    turn, and empties their cells for another consumer to start again. */
module Scheduler {
  import opened Wrappers
  import opened DataModel
  import opened EngineData
  import G = Graphs

  /** A compiled program to run. */
  datatype Program = Program(impls: seq<NodeImpl>, graph: G.Graph, start: nat)

  type TaskId = nat

  /** What a task is doing: awaiting its phantom inputs, then its inputs, then its own work. */
  datatype Phase = Phantoms | Inputs | Working

  /** A spawned task; `parent` is the task whose await spawned it, None for the caller of the run. */
  datatype Task = Task(node: nat, parent: Option<TaskId>, phase: Phase)

  /** An error of a node's own work, or the errors that an `All` node gathered from its inputs. */
  datatype Error = Own(node: nat, failure: Failure) | Collected(errors: seq<Error>)

  datatype Cell = Empty | Busy(task: TaskId) | Done(outcome: Result<Data, Error>)

  datatype State = State(cells: seq<Cell>, tasks: map<TaskId, Task>, next: TaskId)

  datatype Step =
    | StartRoot
    | Start(consumer: TaskId, node: nat)
    | Advance(task: TaskId)
    | Fail(task: TaskId, culprit: nat)
    | Collect(task: TaskId)
    | Finish(task: TaskId)

  ghost predicate ValidProgram(p: Program) {
    G.Ordered(p.impls, p.graph) && p.start < |p.graph|
  }

  function Initial(p: Program): State {
    State(seq(|p.graph|, _ => Empty), map[], 0)
  }

  function Impl(p: Program, node: nat): NodeImpl
    requires node < |p.graph| && p.graph[node].kind < |p.impls|
  {
    p.impls[p.graph[node].kind]
  }

  /** The nodes whose cells a task is awaiting. */
  function Awaits(p: Program, t: Task): seq<nat>
    requires t.node < |p.graph|
  {
    match t.phase
    case Phantoms => p.graph[t.node].phantoms
    case Inputs => p.graph[t.node].inputs
    case Working => []
  }

  predicate IsOk(s: State, node: nat) {
    node < |s.cells| && s.cells[node].Done? && s.cells[node].outcome.Ok?
  }

  predicate IsErr(s: State, node: nat) {
    node < |s.cells| && s.cells[node].Done? && s.cells[node].outcome.Err?
  }

  predicate AllOk(s: State, nodes: seq<nat>) {
    forall i :: 0 <= i < |nodes| ==> IsOk(s, nodes[i])
  }

  predicate AllDone(s: State, nodes: seq<nat>) {
    forall i :: 0 <= i < |nodes| ==> nodes[i] < |s.cells| && s.cells[nodes[i]].Done?
  }

  function Values(s: State, nodes: seq<nat>): (r: seq<Data>)
    requires AllOk(s, nodes)
  {
    seq(|nodes|, i requires 0 <= i < |nodes| => assert IsOk(s, nodes[i]); s.cells[nodes[i]].outcome.value)
  }

  /** The errors of the failed nodes, in order. */
  function Errors(s: State, nodes: seq<nat>): seq<Error>
    requires AllDone(s, nodes)
  {
    if nodes == [] then []
    else
      assert s.cells[nodes[0]].Done?;
      assert AllDone(s, nodes[1..]) by { assert forall i :: 0 <= i < |nodes[1..]| ==> nodes[1..][i] == nodes[i + 1]; }
      (if s.cells[nodes[0]].outcome.Err? then [s.cells[nodes[0]].outcome.error] else []) + Errors(s, nodes[1..])
  }

  /** Task `u` was spawned, directly or through other tasks, by an await of task `t`. */
  predicate Under(s: State, t: TaskId, u: TaskId)
    decreases u
  {
    u in s.tasks && s.tasks[u].parent.Some? &&
    (s.tasks[u].parent.value == t || (s.tasks[u].parent.value < u && Under(s, t, s.tasks[u].parent.value)))
  }

  /** Fills the cell of task `t` and ends it; every task under it is aborted and its cell emptied. */
  function Complete(s: State, t: TaskId, outcome: Result<Data, Error>): State
    requires t in s.tasks
  {
    State(seq(|s.cells|, i requires 0 <= i < |s.cells| =>
            if i == s.tasks[t].node then Done(outcome)
            else if s.cells[i].Busy? && Under(s, t, s.cells[i].task) then Empty
            else s.cells[i]),
          map u | u in s.tasks && u != t && !Under(s, t, u) :: s.tasks[u],
          s.next)
  }

  predicate Running(p: Program, s: State, t: TaskId) {
    t in s.tasks && s.tasks[t].node < |p.graph| && p.graph[s.tasks[t].node].kind < |p.impls|
  }

  predicate FailsFast(p: Program, s: State, t: TaskId)
    requires Running(p, s, t)
  {
    s.tasks[t].phase == Phantoms || (s.tasks[t].phase == Inputs && Impl(p, s.tasks[t].node) != All)
  }

  predicate Enabled(p: Program, s: State, step: Step) {
    match step
    case StartRoot => p.start < |s.cells| && s.cells[p.start].Empty?
    case Start(t, node) => Running(p, s, t) && node in Awaits(p, s.tasks[t]) && node < |s.cells| && s.cells[node].Empty?
    case Advance(t) => Running(p, s, t) && s.tasks[t].phase != Working && AllOk(s, Awaits(p, s.tasks[t]))
    case Fail(t, culprit) =>
      Running(p, s, t) && FailsFast(p, s, t) && culprit in Awaits(p, s.tasks[t]) && IsErr(s, culprit)
    case Collect(t) =>
      && Running(p, s, t) && s.tasks[t].phase == Inputs && Impl(p, s.tasks[t].node) == All
      && AllDone(s, Awaits(p, s.tasks[t])) && !AllOk(s, Awaits(p, s.tasks[t]))
    case Finish(t) =>
      Running(p, s, t) && s.tasks[t].phase == Working && AllOk(s, p.graph[s.tasks[t].node].inputs)
  }

  function Spawn(s: State, node: nat, parent: Option<TaskId>): State
    requires node < |s.cells|
  {
    State(s.cells[node := Busy(s.next)], s.tasks[s.next := Task(node, parent, Phantoms)], s.next + 1)
  }

  function OwnOutcome(world: World, p: Program, s: State, t: TaskId): Result<Data, Error>
    requires Enabled(p, s, Finish(t))
  {
    match Execute(world, Impl(p, s.tasks[t].node), Values(s, p.graph[s.tasks[t].node].inputs))
    case Ok(d) => Ok(d)
    case Err(f) => Err(Own(s.tasks[t].node, f))
  }

  function Apply(world: World, p: Program, s: State, step: Step): State
    requires Enabled(p, s, step)
  {
    match step
    case StartRoot => Spawn(s, p.start, None)
    case Start(t, node) => Spawn(s, node, Some(t))
    case Advance(t) =>
      s.(tasks := s.tasks[t := s.tasks[t].(phase := if s.tasks[t].phase == Phantoms then Inputs else Working)])
    case Fail(t, culprit) => Complete(s, t, Err(s.cells[culprit].outcome.error))
    case Collect(t) => Complete(s, t, Err(Collected(Errors(s, Awaits(p, s.tasks[t])))))
    case Finish(t) => Complete(s, t, OwnOutcome(world, p, s, t))
  }

  /** `steps` is a run from `s` to `end`. */
  ghost predicate Runs(world: World, p: Program, s: State, steps: seq<Step>, end: State)
    decreases |steps|
  {
    if steps == [] then s == end
    else Enabled(p, s, steps[0]) && Runs(world, p, Apply(world, p, s, steps[0]), steps[1..], end)
  }
}
