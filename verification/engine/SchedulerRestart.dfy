/** A run that starts one node twice. The program is All(Env(Image("a"), "k", "k"), "k"): pulling the
    image fails while the literal "k" is still being executed for Env, which fails fast and drops it,
    and All starts it again. SchedulerRuns.StartsExactly counts such starts in every run. */
module SchedulerRestart {
  import opened Wrappers
  import opened DataModel
  import opened EngineData
  import opened Scheduler
  import opened SchedulerRuns
  import opened SchedulerSafety
  import G = Graphs

  /** The prelude, followed by the program's two literals. */
  function Impls(): seq<NodeImpl> {
    seq(|Prelude()|, i requires 0 <= i < |Prelude()| => Prelude()[i].1)
      + [LiteralNode(StrLit("a")), LiteralNode(StrLit("k"))]
  }

  /** Node 0 is "a", node 1 the image, node 2 is "k", node 3 sets the variable and node 4 gathers. */
  function Gathering(): Program {
    Program(Impls(),
            [G.Node(19, [], []), G.Node(1, [0], []), G.Node(20, [], []), G.Node(10, [1, 2, 2], []),
             G.Node(14, [3, 2], [])], 4)
  }

  const K: nat := 2

  const STEPS: seq<Step> :=
    [StartRoot, Advance(0), Start(0, 3), Advance(1), Start(1, 1), Start(1, K), Advance(2), Start(2, 0), Advance(4),
     Advance(4),
     Finish(4), Advance(2), Finish(2), Fail(1, 1), Start(0, K)]

  function Pulled(message: string): Result<Data, Error> {
    Err(Own(1, NodeFailed(message)))
  }

  /** The state after the first `i` steps, when pulling the image fails with `message`. */
  function At(i: nat, message: string): State
    requires i <= |STEPS|
  {
    var none, a := Empty, Done(Ok(StringData("a")));
    var root, env := Task(4, None, Inputs), Task(3, Some(0), Inputs);
    var image, k := Task(1, Some(1), Phantoms), Task(K, Some(1), Phantoms);
    match i
    case 0 => State([none, none, none, none, none], map[], 0)
    case 1 => State([none, none, none, none, Busy(0)], map[0 := root.(phase := Phantoms)], 1)
    case 2 => State([none, none, none, none, Busy(0)], map[0 := root], 1)
    case 3 => State([none, none, none, Busy(1), Busy(0)], map[0 := root, 1 := env.(phase := Phantoms)], 2)
    case 4 => State([none, none, none, Busy(1), Busy(0)], map[0 := root, 1 := env], 2)
    case 5 => State([none, Busy(2), none, Busy(1), Busy(0)], map[0 := root, 1 := env, 2 := image], 3)
    case 6 => State([none, Busy(2), Busy(3), Busy(1), Busy(0)], map[0 := root, 1 := env, 2 := image, 3 := k], 4)
    case 7 =>
      State([none, Busy(2), Busy(3), Busy(1), Busy(0)],
            map[0 := root, 1 := env, 2 := image.(phase := Inputs), 3 := k], 4)
    case 8 => Loading(Phantoms)
    case 9 => Loading(Inputs)
    case 10 => Loading(Working)
    case 11 => Fetching(Inputs)
    case 12 => Fetching(Working)
    case 13 => Failed(message)
    case 14 => Dropped(message)
    case _ =>
      State([a, Done(Pulled(message)), Busy(5), Done(Pulled(message)), Busy(0)],
            map[0 := root, 5 := Task(K, Some(0), Phantoms)], 6)
  }

  /** The literal "a" is executed for the image. */
  function Loading(phase: Phase): State {
    State([Busy(4), Busy(2), Busy(3), Busy(1), Busy(0)],
          map[0 := Task(4, None, Inputs), 1 := Task(3, Some(0), Inputs), 2 := Task(1, Some(1), Inputs),
              3 := Task(K, Some(1), Phantoms), 4 := Task(0, Some(2), phase)],
          5)
  }

  /** The image has its name. */
  function Fetching(phase: Phase): State {
    State([Done(Ok(StringData("a"))), Busy(2), Busy(3), Busy(1), Busy(0)],
          map[0 := Task(4, None, Inputs), 1 := Task(3, Some(0), Inputs), 2 := Task(1, Some(1), phase),
              3 := Task(K, Some(1), Phantoms)],
          5)
  }

  /** Pulling the image has failed. */
  function Failed(message: string): State {
    State([Done(Ok(StringData("a"))), Done(Pulled(message)), Busy(3), Busy(1), Busy(0)],
          map[0 := Task(4, None, Inputs), 1 := Task(3, Some(0), Inputs), 3 := Task(K, Some(1), Phantoms)], 5)
  }

  /** The error has gone up to the variable, and nothing executes "k" any more. */
  function Dropped(message: string): State {
    State([Done(Ok(StringData("a"))), Done(Pulled(message)), Empty, Done(Pulled(message)), Busy(0)],
          map[0 := Task(4, None, Inputs)], 5)
  }

  ghost predicate Moves(world: World, i: nat, message: string)
    requires i < |STEPS|
  {
    Enabled(Gathering(), At(i, message), STEPS[i]) &&
    Apply(world, Gathering(), At(i, message), STEPS[i]) == At(i + 1, message)
  }

  /** The kinds that the nodes of the program have. */
  lemma KindsOfNodes()
    ensures |Impls()| == 21 && Impls()[1] == Wrap(PullImage) && Impls()[10] == Wrap(SetEnvVar) && Impls()[14] == All
    ensures Impls()[19] == LiteralNode(StrLit("a")) && Impls()[20] == LiteralNode(StrLit("k"))
  {
  }

  lemma Opening(world: World, i: nat, message: string)
    requires i < 5
    ensures Moves(world, i, message)
  {
    hide Impls, Complete;
    KindsOfNodes();
  }

  lemma Starting(world: World, i: nat, message: string)
    requires 5 <= i < 8
    ensures Moves(world, i, message)
  {
    hide Impls, Complete;
    KindsOfNodes();
  }

  lemma Advancing(world: World, i: nat, message: string)
    requires 8 <= i < 10
    ensures Moves(world, i, message)
  {
    hide Impls, Complete;
    KindsOfNodes();
  }

  /** The literal "a" is there. */
  lemma Loaded(world: World, message: string)
    ensures Moves(world, 10, message)
  {
    hide Under, Impls, Complete;
    KindsOfNodes();
    var s := Loading(Working);
    assert Enabled(Gathering(), s, Finish(4));
    assert OwnOutcome(world, Gathering(), s, 4) == Ok(StringData("a"));
    LoadingEnds();
  }

  lemma LoadingEnds()
    ensures Complete(Loading(Working), 4, Ok(StringData("a"))) == Fetching(Inputs)
  {
    var s := Loading(Working);
    assert forall u :: 0 <= u < 5 ==> !Under(s, 4, u);
  }

  /** Pulling the image fails. */
  lemma Pulling(world: World, message: string)
    requires world.pullImage("a") == Err(message)
    ensures Moves(world, 12, message)
  {
    hide Under, Impls, Complete, Invoke, At;
    KindsOfNodes();
    var s := Fetching(Working);
    assert Enabled(Gathering(), s, Finish(2));
    assert Values(s, [0]) == [StringData("a")];
    PullFails(world, message);
    assert OwnOutcome(world, Gathering(), s, 2) == Pulled(message);
    FetchingEnds(message);
    assert At(12, message) == s && At(13, message) == Failed(message) by { StatesThen(message); }
  }

  lemma StatesThen(message: string)
    ensures At(12, message) == Fetching(Working) && At(13, message) == Failed(message)
  {
  }

  lemma PullFails(world: World, message: string)
    requires world.pullImage("a") == Err(message)
    ensures Execute(world, Wrap(PullImage), [StringData("a")]) == Err(NodeFailed(message))
  {
    var inputs := [StringData("a")];
    assert inputs[..1] == inputs && AllAccepted(PullImage.Params(), inputs);
  }

  lemma FetchingEnds(message: string)
    ensures Complete(Fetching(Working), 2, Pulled(message)) == Failed(message)
  {
    var s := Fetching(Working);
    assert forall u :: 0 <= u < 5 ==> !Under(s, 2, u);
  }

  /** The task that sets the variable fails fast, which drops the one that was executing "k". */
  lemma Dropping(world: World, message: string)
    ensures Moves(world, 13, message) && Empties(At(13, message), STEPS[13], K)
  {
    hide Impls, Complete, Under;
    KindsOfNodes();
    assert Enabled(Gathering(), Failed(message), Fail(1, 1));
    FailingDrops(message);
  }

  lemma FailingDrops(message: string)
    ensures Complete(Failed(message), 1, Pulled(message)) == Dropped(message) && Under(Failed(message), 1, 3)
  {
    var s := Failed(message);
    assert Under(s, 1, 3) && !Under(s, 1, 0) && !Under(s, 1, 1);
  }

  lemma Resuming(world: World, i: nat, message: string)
    requires i == 11 || i == 14
    ensures Moves(world, i, message)
  {
    hide Impls, Complete;
    KindsOfNodes();
  }

  lemma EveryMove(world: World, i: nat, message: string)
    requires i < |STEPS| && world.pullImage("a") == Err(message)
    ensures Moves(world, i, message)
  {
    hide Moves;
    if i < 5 { Opening(world, i, message); }
    if 5 <= i < 8 { Starting(world, i, message); }
    if 8 <= i < 10 { Advancing(world, i, message); }
    if i == 10 { Loaded(world, message); }
    if i == 12 { Pulling(world, message); }
    if i == 13 { Dropping(world, message); }
    if i == 11 || i == 14 { Resuming(world, i, message); }
  }

  lemma {:induction false} RunFrom(world: World, i: nat, message: string)
    requires i <= |STEPS| && world.pullImage("a") == Err(message)
    ensures Runs(world, Gathering(), At(i, message), STEPS[i..], At(|STEPS|, message))
    ensures Starts(Gathering(), STEPS[i..], K) == if i <= 5 then 2 else if i <= 14 then 1 else 0
    decreases |STEPS| - i
  {
    hide At, Enabled, Apply, Gathering;
    if i < |STEPS| {
      assert STEPS[i..][0] == STEPS[i] && STEPS[i..][1..] == STEPS[i + 1..];
      EveryMove(world, i, message);
      RunFrom(world, i + 1, message);
      assert Gathering().start == 4 by { StartIsLast(); }
    }
  }

  lemma StartIsLast()
    ensures Gathering().start == 4
  {
  }

  /** Whenever pulling the image fails, a run of fifteen steps starts the literal "k" twice. */
  lemma StartedTwice(world: World, message: string)
    requires world.pullImage("a") == Err(message)
    ensures ValidProgram(Gathering()) && Runs(world, Gathering(), Initial(Gathering()), STEPS, At(|STEPS|, message))
    ensures Starts(Gathering(), STEPS, K) == 2
  {
    assert STEPS[0..] == STEPS && Initial(Gathering()) == At(0, message);
    RunFrom(world, 0, message);
  }
}
