/** Whole runs of the scheduler: every run ends, a run that can go no further has settled the start
    node, and what it settled on is the value of the program whatever the schedule was. */
module SchedulerRuns {
  import opened Wrappers
  import opened DataModel
  import opened EngineData
  import opened Scheduler
  import opened SchedulerSafety
  import G = Graphs

  lemma {:induction false} RunInv(world: World, p: Program, s: State, steps: seq<Step>, end: State)
    requires Inv(world, p, s) && Runs(world, p, s, steps, end)
    ensures Inv(world, p, end) && DoneStays(s, end)
    decreases |steps|
  {
    hide Inv, Enabled, Apply;
    if steps != [] {
      StepInv(world, p, s, steps[0]);
      RunInv(world, p, Apply(world, p, s, steps[0]), steps[1..], end);
    }
  }

  /** At no point of any run do two tasks work for the same node. */
  lemma OneTaskPerNode(world: World, p: Program, steps: seq<Step>, end: State, t: TaskId, u: TaskId)
    requires ValidProgram(p) && Runs(world, p, Initial(p), steps, end)
    requires t in end.tasks && u in end.tasks && end.tasks[t].node == end.tasks[u].node
    ensures t == u
  {
    InitialInv(world, p);
    RunInv(world, p, Initial(p), steps, end);
  }

  /** When a node's own work starts, every phantom input and every input has succeeded with its value. */
  lemma WorkStartsLast(world: World, p: Program, steps: seq<Step>, end: State, t: TaskId)
    requires ValidProgram(p) && Runs(world, p, Initial(p), steps, end)
    requires t in end.tasks && end.tasks[t].phase == Working
    ensures end.tasks[t].node < |p.graph| && Needed(p, end.tasks[t].node)
    ensures AllOk(end, p.graph[end.tasks[t].node].phantoms) && AllOk(end, p.graph[end.tasks[t].node].inputs)
  {
    hide Settled, Needed;
    InitialInv(world, p);
    RunInv(world, p, Initial(p), steps, end);
  }

  /** The first awaited node whose cell is not finished, if there is one. */
  lemma FirstOpen(s: State, nodes: seq<nat>) returns (open: Option<nat>)
    requires forall i :: 0 <= i < |nodes| ==> nodes[i] < |s.cells|
    ensures open.None? ==> AllDone(s, nodes)
    ensures open.Some? ==> open.value in nodes && !s.cells[open.value].Done?
  {
    open := None;
    for i := 0 to |nodes|
      invariant open.None? ==> forall k :: 0 <= k < i ==> s.cells[nodes[k]].Done?
      invariant open.Some? ==> open.value in nodes && !s.cells[open.value].Done?
    {
      if !s.cells[nodes[i]].Done? { open := Some(nodes[i]); }
    }
  }

  lemma FirstError(s: State, nodes: seq<nat>) returns (bad: Option<nat>)
    requires AllDone(s, nodes)
    ensures bad.None? ==> AllOk(s, nodes)
    ensures bad.Some? ==> bad.value in nodes && IsErr(s, bad.value) && !AllOk(s, nodes)
  {
    bad := None;
    for i := 0 to |nodes|
      invariant bad.None? ==> forall k :: 0 <= k < i ==> IsOk(s, nodes[k])
      invariant bad.Some? ==>
                bad.value in nodes && IsErr(s, bad.value) && exists k :: 0 <= k < |nodes| && !IsOk(s, nodes[k])
    {
      assert s.cells[nodes[i]].Done?;
      if !IsOk(s, nodes[i]) { bad := Some(nodes[i]); }
    }
  }

  /** Some step is enabled at or below every live task. */
  lemma {:induction false} TaskNotStuck(world: World, p: Program, s: State, t: TaskId) returns (step: Step)
    requires Inv(world, p, s) && t in s.tasks
    ensures Enabled(p, s, step)
    decreases s.tasks[t].node
  {
    hide Settled, Needed, Spawned, Correct, OnlyNeeded;
    var node, awaits := s.tasks[t].node, Awaits(p, s.tasks[t]);
    assert G.NodeBelow(p.impls, p.graph[node], node);
    assert Running(p, s, t);
    if s.tasks[t].phase == Working { return Finish(t); }
    var open := FirstOpen(s, awaits);
    if open.Some? {
      match s.cells[open.value]
      case Empty => step := Start(t, open.value);
      case Busy(u) => step := TaskNotStuck(world, p, s, u);
    } else {
      var bad := FirstError(s, awaits);
      step := if bad.None? then Advance(t) else if FailsFast(p, s, t) then Fail(t, bad.value) else Collect(t);
    }
  }

  /** No reachable state is stuck before the start node has settled. */
  lemma NotStuck(world: World, p: Program, s: State) returns (step: Step)
    requires Inv(world, p, s) && !s.cells[p.start].Done?
    ensures Enabled(p, s, step)
  {
    hide Settled, Needed, Spawned, InPhase, Correct, OnlyNeeded;
    match s.cells[p.start]
    case Empty => step := StartRoot;
    case Busy(t) => step := TaskNotStuck(world, p, s, t);
  }

  /** How much a cell still has to go through when nothing aborts it. */
  function Weight(s: State, c: nat): nat
    requires c < |s.cells|
  {
    match s.cells[c]
    case Empty => 4
    case Busy(t) =>
      if t !in s.tasks || s.tasks[t].phase == Phantoms then 3 else if s.tasks[t].phase == Inputs then 2 else 1
    case Done(_) => 0
  }

  function Weights(s: State): (r: seq<nat>)
    ensures |r| == |s.cells| && forall c :: 0 <= c < |r| ==> r[c] == Weight(s, c)
  {
    seq(|s.cells|, c requires 0 <= c < |s.cells| => Weight(s, c))
  }

  /** One for every cell that is not finished. */
  function Opens(s: State): (r: seq<nat>)
    ensures |r| == |s.cells| && forall c :: 0 <= c < |r| ==> r[c] == if s.cells[c].Done? then 0 else 1
  {
    seq(|s.cells|, c requires 0 <= c < |s.cells| => if s.cells[c].Done? then 0 else 1)
  }

  function Total(xs: seq<nat>): nat {
    if xs == [] then 0 else xs[0] + Total(xs[1..])
  }

  lemma {:induction false} TotalAtMost(xs: seq<nat>, most: nat)
    requires forall i :: 0 <= i < |xs| ==> xs[i] <= most
    ensures Total(xs) <= |xs| * most
    decreases |xs|
  {
    if xs != [] {
      TotalAtMost(xs[1..], most);
      assert |xs| * most == most + |xs[1..]| * most;
    }
  }

  lemma {:induction false} TotalLess(xs: seq<nat>, ys: seq<nat>, at: nat)
    requires |xs| == |ys| && at < |xs| && xs[at] < ys[at] && forall i :: 0 <= i < |xs| ==> xs[i] <= ys[i]
    ensures Total(xs) < Total(ys)
    decreases |xs|
  {
    if at > 0 {
      TotalLess(xs[1..], ys[1..], at - 1);
    } else {
      TotalLeq(xs[1..], ys[1..]);
    }
  }

  lemma {:induction false} TotalLeq(xs: seq<nat>, ys: seq<nat>)
    requires |xs| == |ys| && forall i :: 0 <= i < |xs| ==> xs[i] <= ys[i]
    ensures Total(xs) <= Total(ys)
    decreases |xs|
  {
    if xs != [] { TotalLeq(xs[1..], ys[1..]); }
  }

  /** Unfinished cells first, then what the cells still have to go through: the second part may grow
      when an abort empties cells, but only together with a cell that finishes. */
  function Rank(s: State): nat {
    Total(Opens(s)) * (4 * |s.cells| + 1) + Total(Weights(s))
  }

  lemma MultiplyLess(a: nat, b: nat, n: nat, x: nat, y: nat)
    requires a < b && x < n
    ensures a * n + x < b * n + y
  {
    MultiplyLeq(a + 1, b, n);
    assert (a + 1) * n == a * n + n;
  }

  lemma SpawnRank(s: State, node: nat, parent: Option<TaskId>)
    requires node < |s.cells| && s.cells[node].Empty? && forall t :: t in s.tasks ==> t < s.next
    ensures Rank(Spawn(s, node, parent)) < Rank(s)
  {
    var after := Spawn(s, node, parent);
    assert Opens(after) == Opens(s);
    TotalLess(Weights(after), Weights(s), node);
  }

  lemma AdvanceRank(world: World, p: Program, s: State, t: TaskId)
    requires Matched(p, s) && Enabled(p, s, Advance(t))
    ensures Rank(Apply(world, p, s, Advance(t))) < Rank(s)
  {
    hide AllOk;
    var after := Apply(world, p, s, Advance(t));
    assert Opens(after) == Opens(s);
    assert s.cells[s.tasks[t].node] == Busy(t);
    TotalLess(Weights(after), Weights(s), s.tasks[t].node);
  }

  lemma CompleteRank(p: Program, s: State, t: TaskId, outcome: Result<Data, Error>)
    requires Matched(p, s) && t in s.tasks
    ensures Rank(Complete(s, t, outcome)) < Rank(s)
  {
    hide Under;
    var after := Complete(s, t, outcome);
    TotalLess(Opens(after), Opens(s), s.tasks[t].node);
    TotalAtMost(Weights(after), 4);
    MultiplyLess(Total(Opens(after)), Total(Opens(s)), 4 * |s.cells| + 1, Total(Weights(after)), Total(Weights(s)));
  }

  /** Every step uses up some of the rank, whatever it aborts. */
  lemma StepRank(world: World, p: Program, s: State, step: Step)
    requires Inv(world, p, s) && Enabled(p, s, step)
    ensures Rank(Apply(world, p, s, step)) < Rank(s)
  {
    hide Rank, Spawned, InPhase, Correct, OnlyNeeded, AllOk, AllDone, Under;
    match step
    case StartRoot => SpawnRank(s, p.start, None);
    case Start(t, node) => SpawnRank(s, node, Some(t));
    case Advance(t) => AdvanceRank(world, p, s, t);
    case Fail(t, culprit) => CompleteRank(p, s, t, Err(s.cells[culprit].outcome.error));
    case Collect(t) => CompleteRank(p, s, t, Err(Collected(Errors(s, Awaits(p, s.tasks[t])))));
    case Finish(t) => CompleteRank(p, s, t, OwnOutcome(world, p, s, t));
  }

  /** Every run of a program with n nodes has at most n(4n + 1) + 4n steps. */
  lemma RunsEnd(world: World, p: Program, steps: seq<Step>, end: State)
    requires ValidProgram(p) && Runs(world, p, Initial(p), steps, end)
    ensures |steps| <= |p.graph| * (4 * |p.graph| + 1) + 4 * |p.graph|
  {
    hide ValidProgram, Runs;
    InitialInv(world, p);
    RunRank(world, p, Initial(p), steps, end);
    TotalAtMost(Opens(Initial(p)), 1);
    TotalAtMost(Weights(Initial(p)), 4);
    MultiplyLeq(Total(Opens(Initial(p))), |p.graph|, 4 * |p.graph| + 1);
  }

  lemma MultiplyLeq(a: nat, b: nat, n: nat)
    requires a <= b
    ensures a * n <= b * n
  {
    assert (b - a) * n >= 0;
  }

  lemma {:induction false} RunRank(world: World, p: Program, s: State, steps: seq<Step>, end: State)
    requires Inv(world, p, s) && Runs(world, p, s, steps, end)
    ensures |steps| + Rank(end) <= Rank(s)
    decreases |steps|
  {
    hide Inv, Enabled, Apply, Rank;
    if steps != [] {
      StepInv(world, p, s, steps[0]);
      StepRank(world, p, s, steps[0]);
      RunRank(world, p, Apply(world, p, s, steps[0]), steps[1..], end);
    }
  }

  /** Schedule independence: whatever the interleaving and the aborts, a run that can go no further has
      settled the start node; it succeeded exactly if the program has a value, with that value, and a
      failure is one that the start node may report. */
  lemma EveryScheduleAgrees(world: World, p: Program, steps: seq<Step>, end: State)
    requires ValidProgram(p) && Runs(world, p, Initial(p), steps, end) && forall step :: !Enabled(p, end, step)
    ensures p.start < |end.cells| && end.cells[p.start].Done?
    ensures IsOk(end, p.start) <==> Value(world, p, p.start).Some?
    ensures IsOk(end, p.start) ==> Value(world, p, p.start) == Some(end.cells[p.start].outcome.value)
    ensures IsErr(end, p.start) ==> Legit(world, p, p.start, end.cells[p.start].outcome.error)
  {
    hide Spawned, InPhase, OnlyNeeded, Enabled, Value, Legit;
    InitialInv(world, p);
    RunInv(world, p, Initial(p), steps, end);
    if !end.cells[p.start].Done? {
      var step := NotStuck(world, p, end);
    }
    assert Settled(world, p, p.start, end.cells[p.start].outcome);
    if IsErr(end, p.start) {
      LegitFails(world, p, p.start, end.cells[p.start].outcome.error);
    }
  }

  /** How often a run starts a task for the node. */
  function Starts(p: Program, steps: seq<Step>, node: nat): nat {
    if steps == [] then 0 else (if StartsNode(p, steps[0], node) then 1 else 0) + Starts(p, steps[1..], node)
  }

  predicate StartsNode(p: Program, step: Step, node: nat) {
    (step == StartRoot && node == p.start) || (step.Start? && step.node == node)
  }

  /** The step drops the task that was filling the node's cell: a consumer above it fails fast. */
  predicate Empties(s: State, step: Step, node: nat) {
    step.Fail? && node < |s.cells| && s.cells[node].Busy? && Under(s, step.task, s.cells[node].task)
  }

  /** How often a run empties the node's cell again. */
  function Emptied(world: World, p: Program, s: State, steps: seq<Step>, node: nat): nat
    decreases |steps|
  {
    if steps == [] || !Enabled(p, s, steps[0]) then 0
    else
      var later := Emptied(world, p, Apply(world, p, s, steps[0]), steps[1..], node);
      if Empties(s, steps[0], node) then later + 1 else later
  }

  /** The step fills the node's cell. */
  predicate Fills(s: State, step: Step, node: nat) {
    (step.Fail? || step.Collect? || step.Finish?) && step.task in s.tasks && s.tasks[step.task].node == node
  }

  function Filled(world: World, p: Program, s: State, steps: seq<Step>, node: nat): nat
    decreases |steps|
  {
    if steps == [] || !Enabled(p, s, steps[0]) then 0
    else (if Fills(s, steps[0], node) then 1 else 0) + Filled(world, p, Apply(world, p, s, steps[0]), steps[1..], node)
  }

  /** A task that has everything it awaits leaves no task under it. */
  lemma {:induction false} NothingUnder(p: Program, s: State, t: TaskId, u: TaskId)
    requires Matched(p, s) && Spawned(p, s) && t in s.tasks && AllDone(s, Awaits(p, s.tasks[t]))
    ensures !Under(s, t, u)
    decreases u
  {
    if u in s.tasks && s.tasks[u].parent.Some? {
      NoChildren(p, s, t, u);
      if s.tasks[u].parent.value < u { NothingUnder(p, s, t, s.tasks[u].parent.value); }
    }
  }

  /** No task is under itself, since parents are older. */
  lemma {:induction false} UnderIsLater(p: Program, s: State, t: TaskId, u: TaskId)
    requires Matched(p, s) && Spawned(p, s) && Under(s, t, u)
    ensures t < u
    decreases u
  {
    if s.tasks[u].parent.value != t { UnderIsLater(p, s, t, s.tasks[u].parent.value); }
  }

  /** Ending a task fills its own cell, which was busy, and empties those of the tasks under it. */
  lemma CellAfterEnd(p: Program, s: State, t: TaskId, outcome: Result<Data, Error>, node: nat)
    requires Matched(p, s) && Spawned(p, s) && t in s.tasks && node < |s.cells|
    ensures |Complete(s, t, outcome).cells| == |s.cells|
    ensures s.tasks[t].node == node ==>
              s.cells[node] == Busy(t) && !Under(s, t, t) && Complete(s, t, outcome).cells[node].Done?
    ensures s.tasks[t].node != node && s.cells[node].Busy? && Under(s, t, s.cells[node].task) ==>
              Complete(s, t, outcome).cells[node].Empty?
    ensures s.tasks[t].node != node && !(s.cells[node].Busy? && Under(s, t, s.cells[node].task)) ==>
              Complete(s, t, outcome).cells[node] == s.cells[node]
  {
    hide Under;
    if Under(s, t, t) { UnderIsLater(p, s, t, t); }
  }

  /** A step starts the node exactly if it turns an empty cell busy, empties it exactly if a consumer
      above it fails fast, and fills it exactly if it ends its task. */
  lemma CellStep(world: World, p: Program, s: State, step: Step, node: nat)
    requires Inv(world, p, s) && Enabled(p, s, step) && node < |s.cells|
    ensures var after := Apply(world, p, s, step);
            && |after.cells| == |s.cells|
            && (StartsNode(p, step, node) <==> s.cells[node].Empty? && !after.cells[node].Empty?)
            && (Empties(s, step, node) <==> !s.cells[node].Empty? && after.cells[node].Empty?)
            && (Fills(s, step, node) <==> !s.cells[node].Done? && after.cells[node].Done?)
            && (s.cells[node].Done? ==> after.cells[node].Done?)
  {
    hide Settled, Needed, Correct, OnlyNeeded, InPhase, AllOk, Under, Spawned, Complete;
    match step
    case StartRoot =>
    case Start(_, _) =>
    case Advance(_) =>
    case Fail(t, culprit) => CellAfterEnd(p, s, t, Err(s.cells[culprit].outcome.error), node);
    case Collect(t) =>
      CellAfterEnd(p, s, t, Err(Collected(Errors(s, Awaits(p, s.tasks[t])))), node);
      if s.cells[node].Busy? { NothingUnder(p, s, t, s.cells[node].task); }
    case Finish(t) =>
      CellAfterEnd(p, s, t, OwnOutcome(world, p, s, t), node);
      if s.cells[node].Busy? { NothingUnder(p, s, t, s.cells[node].task); }
  }

  /** How often a node is started, exactly: once for each time that a consumer which fails fast drops
      its task half way, and once more if its cell is not left empty. */
  lemma StartsExactly(world: World, p: Program, steps: seq<Step>, end: State, node: nat)
    requires ValidProgram(p) && Runs(world, p, Initial(p), steps, end) && node < |p.graph|
    ensures |end.cells| == |p.graph|
    ensures Starts(p, steps, node)
         == Emptied(world, p, Initial(p), steps, node) + if end.cells[node].Empty? then 0 else 1
    ensures Filled(world, p, Initial(p), steps, node) == if end.cells[node].Done? then 1 else 0
  {
    hide Runs, Starts, Emptied, Filled;
    InitialInv(world, p);
    StartsFrom(world, p, Initial(p), steps, end, node);
  }

  lemma {:induction false} StartsFrom(world: World, p: Program, s: State, steps: seq<Step>, end: State, node: nat)
    requires Inv(world, p, s) && Runs(world, p, s, steps, end) && node < |s.cells|
    ensures |end.cells| == |s.cells|
    ensures Starts(p, steps, node) + (if s.cells[node].Empty? then 0 else 1)
         == Emptied(world, p, s, steps, node) + if end.cells[node].Empty? then 0 else 1
    ensures Filled(world, p, s, steps, node) + (if s.cells[node].Done? then 1 else 0)
         == if end.cells[node].Done? then 1 else 0
    decreases |steps|
  {
    hide Inv, Enabled, Apply, Empties, Fills, StartsNode;
    if steps != [] {
      var after := Apply(world, p, s, steps[0]);
      StepInv(world, p, s, steps[0]);
      CellStep(world, p, s, steps[0], node);
      StartsFrom(world, p, after, steps[1..], end, node);
    }
  }

  /** Consumers share a single execution of a node exactly if no consumer above it that fails fast drops
      its task and has it started again. */
  lemma StartedOnceIff(world: World, p: Program, steps: seq<Step>, end: State, node: nat)
    requires ValidProgram(p) && Runs(world, p, Initial(p), steps, end) && node < |p.graph|
    ensures |end.cells| == |p.graph|
    ensures Starts(p, steps, node) <= 1 <==>
              || Emptied(world, p, Initial(p), steps, node) == 0
              || (Emptied(world, p, Initial(p), steps, node) == 1 && end.cells[node].Empty?)
  {
    hide Runs, Starts, Emptied, Filled;
    StartsExactly(world, p, steps, end, node);
  }

  /** Nothing is dropped in a program all of whose needed nodes have a value. */
  lemma {:induction false} NoAbortWithoutFailure(world: World, p: Program, s: State, steps: seq<Step>, end: State,
                                                 node: nat)
    requires Inv(world, p, s) && Runs(world, p, s, steps, end)
    requires forall k :: 0 <= k < |p.graph| && Needed(p, k) ==> Value(world, p, k).Some?
    ensures (forall i :: 0 <= i < |steps| ==> !steps[i].Fail?) && Emptied(world, p, s, steps, node) == 0
    decreases |steps|
  {
    hide Needed, Value, Under;
    if steps != [] {
      StepInv(world, p, s, steps[0]);
      NoAbortWithoutFailure(world, p, Apply(world, p, s, steps[0]), steps[1..], end, node);
      if steps[0].Fail? {
        var culprit := steps[0].culprit;
        assert Settled(world, p, culprit, s.cells[culprit].outcome);
        LegitFails(world, p, culprit, s.cells[culprit].outcome.error);
        assert false;
      }
    }
  }
}
