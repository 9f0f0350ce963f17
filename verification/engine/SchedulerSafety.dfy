/** What every step of the scheduler keeps, in every interleaving and through every abort. */
module SchedulerSafety {
  import opened Wrappers
  import opened DataModel
  import opened EngineData
  import opened Scheduler
  import G = Graphs

  /** The value of a node, independent of any schedule. */
  ghost function Value(world: World, p: Program, node: nat): Option<Data>
    requires ValidProgram(p) && node < |p.graph|
  {
    Eval(world, G.Unfold(p.impls, p.graph, node))
  }

  /** An error that a run may report for a node: its own, that of a failing input it does not gather,
      or for `All` exactly one per failing input in input order. */
  ghost predicate Legit(world: World, p: Program, node: nat, e: Error)
    requires ValidProgram(p) && node < |p.graph|
    decreases node, 1
  {
    var n := p.graph[node];
    assert G.NodeBelow(p.impls, n, node);
    || (exists i :: 0 <= i < |n.phantoms| && Legit(world, p, n.phantoms[i], e))
    || (Impl(p, node) != All && exists i :: 0 <= i < |n.inputs| && Legit(world, p, n.inputs[i], e))
    || (Impl(p, node) == All && e.Collected? && n.inputs != [] && e.errors != []
        && (forall i :: 0 <= i < |n.inputs| ==> n.inputs[i] < node) && Gathered(world, p, node, n.inputs, e.errors))
    || (e.Own? && e.node == node && OwnFailure(world, p, node) == Some(e.failure))
  }

  /** `errors` holds exactly one legitimate error for each failing node of the list, in order. */
  ghost predicate Gathered(world: World, p: Program, bound: nat, nodes: seq<nat>, errors: seq<Error>)
    requires ValidProgram(p) && bound < |p.graph| && forall i :: 0 <= i < |nodes| ==> nodes[i] < bound
    decreases bound, 0, |nodes|
  {
    if nodes == [] then errors == []
    else if Value(world, p, nodes[0]).Some? then Gathered(world, p, bound, nodes[1..], errors)
    else errors != [] && Legit(world, p, nodes[0], errors[0]) && Gathered(world, p, bound, nodes[1..], errors[1..])
  }

  /** The failure of a node's own work, when everything it awaits succeeds. */
  ghost function OwnFailure(world: World, p: Program, node: nat): Option<Failure>
    requires ValidProgram(p) && node < |p.graph|
  {
    var t := G.Unfold(p.impls, p.graph, node);
    if EvalAll(world, t.phantoms).None? || EvalAll(world, t.inputs).None? then None
    else match Execute(world, t.impl, EvalAll(world, t.inputs).value)
      case Ok(_) => None
      case Err(f) => Some(f)
  }

  /** A legitimate error is an error of a node that has no value. */
  lemma {:induction false} LegitFails(world: World, p: Program, node: nat, e: Error)
    requires ValidProgram(p) && node < |p.graph| && Legit(world, p, node, e)
    ensures Value(world, p, node).None?
    decreases node, 1
  {
    var n, t := p.graph[node], G.Unfold(p.impls, p.graph, node);
    assert G.NodeBelow(p.impls, n, node);
    if i :| 0 <= i < |n.phantoms| && Legit(world, p, n.phantoms[i], e) {
      LegitFails(world, p, n.phantoms[i], e);
      assert Eval(world, t.phantoms[i]).None?;
    } else if Impl(p, node) != All && exists i :: 0 <= i < |n.inputs| && Legit(world, p, n.inputs[i], e) {
      var i :| 0 <= i < |n.inputs| && Legit(world, p, n.inputs[i], e);
      LegitFails(world, p, n.inputs[i], e);
      assert Eval(world, t.inputs[i]).None?;
    } else if Impl(p, node) == All && e.Collected? {
      var i := GatheredFails(world, p, node, n.inputs, e.errors);
      assert Eval(world, t.inputs[i]).None?;
    }
  }

  lemma {:induction false} GatheredFails(world: World, p: Program, bound: nat, nodes: seq<nat>, errors: seq<Error>)
    returns (i: nat)
    requires ValidProgram(p) && bound < |p.graph| && forall i :: 0 <= i < |nodes| ==> nodes[i] < bound
    requires Gathered(world, p, bound, nodes, errors) && errors != []
    ensures i < |nodes| && Value(world, p, nodes[i]).None?
    decreases |nodes|
  {
    hide Value, ValidProgram;
    if Value(world, p, nodes[0]).Some? {
      i := GatheredFails(world, p, bound, nodes[1..], errors);
      i := i + 1;
    } else {
      i := 0;
    }
  }

  /** `node` is needed by the start node. */
  ghost predicate Needed(p: Program, node: nat)
    requires ValidProgram(p)
    decreases |p.graph| - node
  {
    || node == p.start
    || exists k :: node < k < |p.graph| && (node in p.graph[k].inputs || node in p.graph[k].phantoms) && Needed(p, k)
  }

  /** Cells and tasks are two views of the same thing: a busy cell is being filled by the one task of
      its node. */
  ghost predicate Matched(p: Program, s: State) {
    && |s.cells| == |p.graph|
    && (forall c :: 0 <= c < |s.cells| && s.cells[c].Busy? ==>
          s.cells[c].task in s.tasks && s.tasks[s.cells[c].task].node == c)
    && (forall t :: t in s.tasks ==> t < s.next && s.tasks[t].node < |s.cells| && s.cells[s.tasks[t].node] == Busy(t))
  }

  /** A task was spawned by the caller for the start node, or by an older task that still awaits it. */
  ghost predicate Spawned(p: Program, s: State)
    requires Matched(p, s)
  {
    forall t :: t in s.tasks ==>
      match s.tasks[t].parent
      case None => s.tasks[t].node == p.start
      case Some(q) => q in s.tasks && q < t && s.tasks[t].node in Awaits(p, s.tasks[q])
  }

  /** A task has reached its inputs, or its own work, only when everything before succeeded. */
  ghost predicate InPhase(p: Program, s: State)
    requires Matched(p, s)
  {
    forall t :: t in s.tasks ==>
      && (s.tasks[t].phase != Phantoms ==> AllOk(s, p.graph[s.tasks[t].node].phantoms))
      && (s.tasks[t].phase == Working ==> AllOk(s, p.graph[s.tasks[t].node].inputs))
  }

  /** A finished cell holds the value of its node, or an error that the node may report. */
  ghost predicate Correct(world: World, p: Program, s: State)
    requires ValidProgram(p) && Matched(p, s)
  {
    forall c :: 0 <= c < |s.cells| && s.cells[c].Done? ==> Settled(world, p, c, s.cells[c].outcome)
  }

  ghost predicate Settled(world: World, p: Program, node: nat, outcome: Result<Data, Error>)
    requires ValidProgram(p) && node < |p.graph|
  {
    match outcome
    case Ok(d) => Value(world, p, node) == Some(d)
    case Err(e) => Legit(world, p, node, e)
  }

  /** Only nodes that the start node needs are ever started. */
  ghost predicate OnlyNeeded(p: Program, s: State)
    requires ValidProgram(p) && Matched(p, s)
  {
    forall c :: 0 <= c < |s.cells| && !s.cells[c].Empty? ==> Needed(p, c)
  }

  ghost predicate Inv(world: World, p: Program, s: State) {
    && ValidProgram(p) && Matched(p, s)
    && Spawned(p, s) && InPhase(p, s) && Correct(world, p, s) && OnlyNeeded(p, s)
  }

  lemma InitialInv(world: World, p: Program)
    requires ValidProgram(p)
    ensures Inv(world, p, Initial(p))
  {
  }

  /** A node that a needed node awaits is needed. */
  lemma NeededDown(p: Program, t: Task, node: nat)
    requires ValidProgram(p) && t.node < |p.graph| && Needed(p, t.node) && node in Awaits(p, t)
    ensures node < t.node && Needed(p, node)
  {
    assert G.NodeBelow(p.impls, p.graph[t.node], t.node);
  }

  /** Finished cells stay as they are. */
  ghost predicate DoneStays(s: State, after: State) {
    |after.cells| == |s.cells| && forall c :: 0 <= c < |s.cells| && s.cells[c].Done? ==> after.cells[c] == s.cells[c]
  }

  lemma AllOkStays(s: State, after: State, nodes: seq<nat>)
    requires DoneStays(s, after) && AllOk(s, nodes)
    ensures AllOk(after, nodes)
  {
    forall i | 0 <= i < |nodes| ensures IsOk(after, nodes[i]) {
      assert IsOk(s, nodes[i]);
    }
  }

  /** Tasks that keep their node and phase stay in step with finished cells. */
  lemma InPhaseKept(p: Program, s: State, after: State, t: TaskId)
    requires Matched(p, s) && InPhase(p, s) && DoneStays(s, after) && Matched(p, after)
    requires t in s.tasks && t in after.tasks && after.tasks[t].node == s.tasks[t].node
    requires after.tasks[t].phase == s.tasks[t].phase
    ensures after.tasks[t].phase != Phantoms ==> AllOk(after, p.graph[after.tasks[t].node].phantoms)
    ensures after.tasks[t].phase == Working ==> AllOk(after, p.graph[after.tasks[t].node].inputs)
  {
    hide AllOk, DoneStays;
    var n := p.graph[s.tasks[t].node];
    if s.tasks[t].phase != Phantoms { AllOkStays(s, after, n.phantoms); }
    if s.tasks[t].phase == Working { AllOkStays(s, after, n.inputs); }
  }

  lemma SpawnMatched(p: Program, s: State, node: nat, parent: Option<TaskId>)
    requires Matched(p, s) && node < |s.cells| && s.cells[node].Empty?
    ensures Matched(p, Spawn(s, node, parent)) && DoneStays(s, Spawn(s, node, parent))
  {
  }

  lemma SpawnSpawned(p: Program, s: State, node: nat, parent: Option<TaskId>)
    requires Matched(p, s) && Spawned(p, s) && node < |s.cells| && s.cells[node].Empty?
    requires Matched(p, Spawn(s, node, parent))
    requires parent.None? ==> node == p.start
    requires parent.Some? ==> parent.value in s.tasks && node in Awaits(p, s.tasks[parent.value])
    ensures Spawned(p, Spawn(s, node, parent))
  {
  }

  lemma SpawnInPhase(p: Program, s: State, node: nat, parent: Option<TaskId>)
    requires Matched(p, s) && InPhase(p, s) && node < |s.cells| && s.cells[node].Empty?
    ensures Matched(p, Spawn(s, node, parent)) && InPhase(p, Spawn(s, node, parent))
  {
    SpawnMatched(p, s, node, parent);
    var after := Spawn(s, node, parent);
    forall t | t in after.tasks
      ensures after.tasks[t].phase != Phantoms ==> AllOk(after, p.graph[after.tasks[t].node].phantoms)
      ensures after.tasks[t].phase == Working ==> AllOk(after, p.graph[after.tasks[t].node].inputs)
    {
      if t in s.tasks { InPhaseKept(p, s, after, t); }
    }
  }

  lemma SpawnInv(world: World, p: Program, s: State, node: nat, parent: Option<TaskId>)
    requires Inv(world, p, s) && node < |s.cells| && s.cells[node].Empty? && Needed(p, node)
    requires parent.None? ==> node == p.start
    requires parent.Some? ==> parent.value in s.tasks && node in Awaits(p, s.tasks[parent.value])
    ensures Inv(world, p, Spawn(s, node, parent)) && DoneStays(s, Spawn(s, node, parent))
  {
    hide Needed, Settled, ValidProgram, Matched, Spawned, InPhase, DoneStays;
    SpawnMatched(p, s, node, parent);
    SpawnSpawned(p, s, node, parent);
    SpawnInPhase(p, s, node, parent);
  }

  /** A task that has everything it awaits has no task left under it. */
  lemma NoChildren(p: Program, s: State, t: TaskId, u: TaskId)
    requires Matched(p, s) && Spawned(p, s) && t in s.tasks && AllDone(s, Awaits(p, s.tasks[t])) && u in s.tasks
    ensures s.tasks[u].parent != Some(t)
  {
  }

  lemma AllOkDone(s: State, nodes: seq<nat>)
    requires AllOk(s, nodes)
    ensures AllDone(s, nodes)
  {
    forall i | 0 <= i < |nodes| ensures nodes[i] < |s.cells| && s.cells[nodes[i]].Done? { assert IsOk(s, nodes[i]); }
  }

  lemma AdvanceMatched(world: World, p: Program, s: State, t: TaskId)
    requires Matched(p, s) && Enabled(p, s, Advance(t))
    ensures Matched(p, Apply(world, p, s, Advance(t)))
  {
    hide AllOk, AllDone;
  }

  lemma AdvanceSpawned(world: World, p: Program, s: State, t: TaskId)
    requires Matched(p, s) && Spawned(p, s) && Enabled(p, s, Advance(t)) && Matched(p, Apply(world, p, s, Advance(t)))
    ensures Spawned(p, Apply(world, p, s, Advance(t)))
  {
    hide AllOk, AllDone, Matched, Awaits;
    AllOkDone(s, Awaits(p, s.tasks[t]));
    var after := Apply(world, p, s, Advance(t));
    forall u | u in s.tasks ensures s.tasks[u].parent != Some(t) {
      NoChildren(p, s, t, u);
    }
  }

  lemma AdvanceInPhase(world: World, p: Program, s: State, t: TaskId)
    requires Matched(p, s) && InPhase(p, s) && Enabled(p, s, Advance(t)) && Matched(p, Apply(world, p, s, Advance(t)))
    ensures DoneStays(s, Apply(world, p, s, Advance(t))) && InPhase(p, Apply(world, p, s, Advance(t)))
  {
    hide AllOk, AllDone;
    var after := Apply(world, p, s, Advance(t));
    AllOkStays(s, after, Awaits(p, s.tasks[t]));
    forall u | u in after.tasks
      ensures after.tasks[u].phase != Phantoms ==> AllOk(after, p.graph[after.tasks[u].node].phantoms)
      ensures after.tasks[u].phase == Working ==> AllOk(after, p.graph[after.tasks[u].node].inputs)
    {
      if u != t { InPhaseKept(p, s, after, u); }
      else if s.tasks[t].phase == Inputs { AllOkStays(s, after, p.graph[s.tasks[t].node].phantoms); }
    }
  }

  lemma AdvanceInv(world: World, p: Program, s: State, t: TaskId)
    requires Inv(world, p, s) && Enabled(p, s, Advance(t))
    ensures Inv(world, p, Apply(world, p, s, Advance(t))) && DoneStays(s, Apply(world, p, s, Advance(t)))
  {
    hide Needed, Settled, ValidProgram, Matched, Spawned, InPhase, DoneStays, AllOk;
    AdvanceMatched(world, p, s, t);
    AdvanceSpawned(world, p, s, t);
    AdvanceInPhase(world, p, s, t);
  }

  /** Tasks that outlive the end of task `t`. */
  ghost predicate Survives(s: State, t: TaskId, u: TaskId) {
    u in s.tasks && u != t && !Under(s, t, u)
  }

  /** A survivor's parent survives: nothing aborted leaves a waiting child behind. */
  lemma ParentSurvives(p: Program, s: State, t: TaskId, u: TaskId)
    requires Matched(p, s) && Spawned(p, s) && t in s.tasks && Survives(s, t, u) && s.tasks[u].parent.Some?
    ensures Survives(s, t, s.tasks[u].parent.value)
  {
  }

  lemma CompleteMatched(p: Program, s: State, t: TaskId, outcome: Result<Data, Error>)
    requires Matched(p, s) && Spawned(p, s) && t in s.tasks
    ensures Matched(p, Complete(s, t, outcome)) && DoneStays(s, Complete(s, t, outcome))
  {
  }

  lemma CompleteSpawned(p: Program, s: State, t: TaskId, outcome: Result<Data, Error>)
    requires Matched(p, s) && Spawned(p, s) && t in s.tasks && Matched(p, Complete(s, t, outcome))
    ensures Spawned(p, Complete(s, t, outcome))
  {
    hide Under;
    var after := Complete(s, t, outcome);
    forall u | u in after.tasks && after.tasks[u].parent.Some?
      ensures after.tasks[u].parent.value in after.tasks
    {
      ParentSurvives(p, s, t, u);
    }
  }

  lemma CompleteInPhase(p: Program, s: State, t: TaskId, outcome: Result<Data, Error>)
    requires Matched(p, s) && InPhase(p, s) && t in s.tasks && Matched(p, Complete(s, t, outcome))
    requires DoneStays(s, Complete(s, t, outcome))
    ensures InPhase(p, Complete(s, t, outcome))
  {
    hide Under, AllOk;
    var after := Complete(s, t, outcome);
    forall u | u in after.tasks
      ensures after.tasks[u].phase != Phantoms ==> AllOk(after, p.graph[after.tasks[u].node].phantoms)
      ensures after.tasks[u].phase == Working ==> AllOk(after, p.graph[after.tasks[u].node].inputs)
    {
      InPhaseKept(p, s, after, u);
    }
  }

  /** Ending a task with an outcome that its node may have. */
  lemma CompleteInv(world: World, p: Program, s: State, t: TaskId, outcome: Result<Data, Error>)
    requires Inv(world, p, s) && t in s.tasks && Settled(world, p, s.tasks[t].node, outcome)
    ensures Inv(world, p, Complete(s, t, outcome)) && DoneStays(s, Complete(s, t, outcome))
  {
    hide Needed, Settled, ValidProgram, Spawned, InPhase, Under;
    CompleteMatched(p, s, t, outcome);
    CompleteSpawned(p, s, t, outcome);
    CompleteInPhase(p, s, t, outcome);
  }

  /** What the finished cells of a node's awaits hold are the values of its subterms. */
  lemma ValuesAreEval(world: World, p: Program, s: State, nodes: seq<nat>, terms: seq<Term>)
    requires Inv(world, p, s) && AllOk(s, nodes) && |terms| == |nodes|
    requires forall i :: 0 <= i < |nodes| ==> nodes[i] < |p.graph| && terms[i] == G.Unfold(p.impls, p.graph, nodes[i])
    ensures EvalAll(world, terms) == Some(Values(s, nodes))
  {
    hide Spawned, InPhase, OnlyNeeded, Eval;
    forall i | 0 <= i < |nodes| ensures Eval(world, terms[i]) == Some(Values(s, nodes)[i]) {
      assert IsOk(s, nodes[i]);
      assert Settled(world, p, nodes[i], s.cells[nodes[i]].outcome);
    }
    assert EvalAll(world, terms).value == Values(s, nodes);
  }

  /** A task at its own work sees exactly the values of its inputs, its phantoms having succeeded. */
  lemma WorkingSees(world: World, p: Program, s: State, t: TaskId)
    requires ValidProgram(p) && Running(p, s, t) && AllOk(s, p.graph[s.tasks[t].node].inputs)
    requires s.tasks[t].phase == Working && Inv(world, p, s)
    ensures EvalAll(world, G.Unfold(p.impls, p.graph, s.tasks[t].node).phantoms).Some?
    ensures EvalAll(world, G.Unfold(p.impls, p.graph, s.tasks[t].node).inputs)
         == Some(Values(s, p.graph[s.tasks[t].node].inputs))
  {
    var node := s.tasks[t].node;
    assert G.NodeBelow(p.impls, p.graph[node], node);
    ValuesAreEval(world, p, s, p.graph[node].phantoms, G.Unfold(p.impls, p.graph, node).phantoms);
    ValuesAreEval(world, p, s, p.graph[node].inputs, G.Unfold(p.impls, p.graph, node).inputs);
  }

  lemma FinishSettled(world: World, p: Program, s: State, t: TaskId)
    requires Inv(world, p, s) && Enabled(p, s, Finish(t))
    ensures Settled(world, p, s.tasks[t].node, OwnOutcome(world, p, s, t))
  {
    hide Inv, Enabled, EvalAll, Execute;
    FinishIsRunning(world, p, s, t);
    WorkingSees(world, p, s, t);
  }

  lemma FinishIsRunning(world: World, p: Program, s: State, t: TaskId)
    requires Inv(world, p, s) && Enabled(p, s, Finish(t))
    ensures ValidProgram(p) && Running(p, s, t) && AllOk(s, p.graph[s.tasks[t].node].inputs)
    ensures s.tasks[t].phase == Working
    ensures G.Unfold(p.impls, p.graph, s.tasks[t].node).impl == Impl(p, s.tasks[t].node)
  {
  }

  lemma FailSettled(world: World, p: Program, s: State, t: TaskId, culprit: nat)
    requires Inv(world, p, s) && Enabled(p, s, Fail(t, culprit))
    ensures Settled(world, p, s.tasks[t].node, Err(s.cells[culprit].outcome.error))
  {
    hide Spawned, InPhase, OnlyNeeded;
    var node, e := s.tasks[t].node, s.cells[culprit].outcome.error;
    assert G.NodeBelow(p.impls, p.graph[node], node);
    assert Settled(world, p, culprit, s.cells[culprit].outcome);
    var i :| 0 <= i < |Awaits(p, s.tasks[t])| && Awaits(p, s.tasks[t])[i] == culprit;
    assert Legit(world, p, Awaits(p, s.tasks[t])[i], e);
  }

  lemma {:induction false} ErrorsGathered(world: World, p: Program, s: State, bound: nat, nodes: seq<nat>)
    requires Inv(world, p, s) && AllDone(s, nodes)
    requires bound < |p.graph| && forall i :: 0 <= i < |nodes| ==> nodes[i] < bound
    ensures Gathered(world, p, bound, nodes, Errors(s, nodes))
    ensures Errors(s, nodes) == [] ==> AllOk(s, nodes)
    decreases |nodes|
  {
    hide Spawned, InPhase, OnlyNeeded, Matched, Needed, Value;
    if nodes != [] {
      assert s.cells[nodes[0]].Done? && nodes[0] < bound;
      AllDoneTail(s, nodes);
      SettledHere(world, p, s, nodes[0]);
      ErrorsGathered(world, p, s, bound, nodes[1..]);
      ErrorsStep(s, nodes);
      if s.cells[nodes[0]].outcome.Err? {
        LegitFails(world, p, nodes[0], s.cells[nodes[0]].outcome.error);
      } else if Errors(s, nodes) == [] {
        AllOkCons(s, nodes);
      }
    }
  }

  lemma SettledHere(world: World, p: Program, s: State, node: nat)
    requires Inv(world, p, s) && node < |s.cells| && s.cells[node].Done?
    ensures |s.cells| == |p.graph| && Settled(world, p, node, s.cells[node].outcome)
  {
  }

  lemma AllDoneTail(s: State, nodes: seq<nat>)
    requires AllDone(s, nodes) && nodes != []
    ensures AllDone(s, nodes[1..]) && nodes[0] < |s.cells| && s.cells[nodes[0]].Done?
  {
    forall i | 0 <= i < |nodes[1..]| ensures nodes[1..][i] < |s.cells| && s.cells[nodes[1..][i]].Done? {
      assert nodes[1..][i] == nodes[i + 1];
    }
  }

  lemma ErrorsStep(s: State, nodes: seq<nat>)
    requires AllDone(s, nodes) && nodes != [] && AllDone(s, nodes[1..]) && s.cells[nodes[0]].Done?
    ensures Errors(s, nodes)
         == if s.cells[nodes[0]].outcome.Err? then [s.cells[nodes[0]].outcome.error] + Errors(s, nodes[1..])
            else Errors(s, nodes[1..])
  {
  }

  lemma AllOkCons(s: State, nodes: seq<nat>)
    requires nodes != [] && IsOk(s, nodes[0]) && AllOk(s, nodes[1..])
    ensures AllOk(s, nodes)
  {
    forall i | 0 <= i < |nodes| ensures IsOk(s, nodes[i]) {
      if i > 0 { assert nodes[1..][i - 1] == nodes[i]; }
    }
  }

  lemma CollectSettled(world: World, p: Program, s: State, node: nat, inputs: seq<nat>)
    requires ValidProgram(p) && node < |p.graph| && inputs == p.graph[node].inputs && p.graph[node].kind < |p.impls|
    requires Impl(p, node) == All && AllDone(s, inputs) && !AllOk(s, inputs) && Inv(world, p, s)
    ensures Settled(world, p, node, Err(Collected(Errors(s, inputs))))
  {
    assert G.NodeBelow(p.impls, p.graph[node], node);
    ErrorsGathered(world, p, s, node, inputs);
  }

  /** Every step keeps the invariant and every finished cell. */
  lemma StepInv(world: World, p: Program, s: State, step: Step)
    requires Inv(world, p, s) && Enabled(p, s, step)
    ensures Inv(world, p, Apply(world, p, s, step)) && DoneStays(s, Apply(world, p, s, step))
  {
    hide Settled, Spawned, InPhase, Correct, Under, AllOk, AllDone, DoneStays;
    match step
    case StartRoot => SpawnInv(world, p, s, p.start, None);
    case Start(t, node) =>
      NeededDown(p, s.tasks[t], node);
      SpawnInv(world, p, s, node, Some(t));
    case Advance(t) => AdvanceInv(world, p, s, t);
    case Fail(t, culprit) =>
      FailSettled(world, p, s, t, culprit);
      CompleteInv(world, p, s, t, Err(s.cells[culprit].outcome.error));
    case Collect(t) =>
      CollectSettled(world, p, s, s.tasks[t].node, Awaits(p, s.tasks[t]));
      CompleteInv(world, p, s, t, Err(Collected(Errors(s, Awaits(p, s.tasks[t])))));
    case Finish(t) =>
      FinishSettled(world, p, s, t);
      CompleteInv(world, p, s, t, OwnOutcome(world, p, s, t));
  }
}
