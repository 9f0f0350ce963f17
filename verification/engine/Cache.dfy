/** The shared result cache. Any number of runs of any programs read and write it at once; a value
    may fail its health check, a write may be refused or break off, an entry may be unreadable and
    snapshots are stored next to values. Every node still outputs its uncached value. */
module Cache {
  import opened Wrappers
  import opened DataModel
  import opened EngineData
  import opened Postcard
  import opened CacheKeys

  /** What was once written under a key: a whole value, or bytes that are not one. */
  datatype Entry = Value(data: Data) | Opaque(bytes: Bytes)

  /** All that was ever written under each key. A read returns one of these or nothing. */
  type Written = map<Bytes, seq<Entry>>

  predicate ShouldBeCached(impl: NodeImpl) {
    impl.Wrap? && impl.function_.Cached() && Storable(impl.function_.Result().Kind())
  }

  predicate Storable(t: DataType) {
    t != DataType.FileSystem
  }

  /** The node implementations of a program: the prelude, then one for each of its literals. */
  ghost predicate Registered(nodes: seq<NodeImpl>) {
    && |Prelude()| <= |nodes| <= U64_LIMIT
    && (forall k :: 0 <= k < |Prelude()| ==> nodes[k] == Prelude()[k].1)
    && (forall k :: |Prelude()| <= k < |nodes| ==> nodes[k].LiteralNode?)
  }

  /** Node kinds that are cached have the same id and implementation in every program. */
  lemma CachedKindsAreFixed(nodes: seq<NodeImpl>, kind: nat)
    requires Registered(nodes) && kind < |nodes| && ShouldBeCached(nodes[kind])
    ensures kind < |Prelude()| && nodes[kind] == Prelude()[kind].1
  {
    hide Prelude;
  }

  function NodeHash(h: Hashing, kind: u64, inputs: seq<Data>): Bytes {
    h.digest(Fed(h, NodeKey(kind, inputs)))
  }

  function Record(w: Written, key: Bytes, e: Entry): Written {
    w[key := (if key in w then w[key] else []) + [e]]
  }

  ghost predicate Stored(w: Written, key: Bytes, e: Entry) {
    key in w && e in w[key]
  }

  /** Recording adds an entry and loses none. */
  lemma RecordAdds(w: Written, key: Bytes, e: Entry, other: Bytes, x: Entry)
    ensures Stored(Record(w, key, e), other, x) <==> Stored(w, other, x) || (other == key && x == e)
  {
  }

  /** Whatever was stored still is. */
  ghost predicate Keeps(w: Written, more: Written) {
    forall key, e :: Stored(w, key, e) ==> Stored(more, key, e)
  }

  lemma KeepsItself(w: Written)
    ensures Keeps(w, w)
  {
  }

  lemma RecordKeeps(w: Written, v: Written, key: Bytes, e: Entry)
    requires Keeps(w, v)
    ensures Keeps(w, Record(v, key, e)) && Stored(Record(v, key, e), key, e)
  {
    hide Record, Stored;
    forall k, x | Stored(w, k, x) ensures Stored(Record(v, key, e), k, x) { RecordAdds(v, key, e, k, x); }
    RecordAdds(v, key, e, key, e);
  }

  ghost predicate Yields(world: World, kind: nat, inputs: seq<Data>, d: Data) {
    kind < |Prelude()| && Execute(world, Prelude()[kind].1, inputs) == Ok(d)
  }

  /** The value was stored under the hash of key `k`; if that is a node's key, it is what executing the
      node yields. */
  ghost predicate StoredFor(h: Hashing, world: World, hashed: set<Bytes>, key: Bytes, d: Data, k: Key) {
    && Fits(k) && Hashed(h, k) <= hashed && h.digest(Fed(h, k)) == key
    && (k.NodeKey? ==> Yields(world, k.kind, k.inputs, d))
  }

  /** Every whole value in the cache was stored for some key that has been hashed. */
  ghost predicate Honest(h: Hashing, world: World, w: Written, hashed: set<Bytes>) {
    forall key, d :: Stored(w, key, Value(d)) ==> exists k :: StoredFor(h, world, hashed, key, d, k)
  }

  lemma HonestMore(h: Hashing, world: World, w: Written, hashed: set<Bytes>, more: set<Bytes>)
    requires Honest(h, world, w, hashed) && hashed <= more
    ensures Honest(h, world, w, more)
  {
    hide Hashed, Yields, Fed, Stored;
    forall key, d | Stored(w, key, Value(d)) ensures exists k :: StoredFor(h, world, more, key, d, k) {
      var k :| StoredFor(h, world, hashed, key, d, k);
      assert StoredFor(h, world, more, key, d, k);
    }
  }

  lemma HonestRecord(h: Hashing, world: World, w: Written, hashed: set<Bytes>, k: Key, e: Entry)
    requires Honest(h, world, w, hashed) && Fits(k) && Hashed(h, k) <= hashed
    requires k.NodeKey? && e.Value? ==> Yields(world, k.kind, k.inputs, e.data)
    ensures Honest(h, world, Record(w, h.digest(Fed(h, k)), e), hashed)
  {
    hide Hashed, Yields, Fed;
    var at := h.digest(Fed(h, k));
    var after := Record(w, at, e);
    forall key, d | Stored(after, key, Value(d)) ensures exists k :: StoredFor(h, world, hashed, key, d, k) {
      if key == at && e == Value(d) {
        assert StoredFor(h, world, hashed, key, d, k);
      } else {
        assert Stored(w, key, Value(d));
      }
    }
  }

  /** What is found under a node's key was stored for that node, if hashing had no collision. */
  lemma FoundIsYielded(h: Hashing, world: World, w: Written, hashed: set<Bytes>, kind: u64, inputs: seq<Data>, d: Data)
    requires Honest(h, world, w, hashed) && FixedLength(h) && Apart(h, hashed)
    requires |inputs| < U64_LIMIT && Hashed(h, NodeKey(kind, inputs)) <= hashed
    requires Stored(w, NodeHash(h, kind, inputs), Value(d))
    ensures Yields(world, kind, inputs, d)
  {
    hide Hashed, Yields, Fed, Stored, FixedLength, Apart;
    var k :| StoredFor(h, world, hashed, NodeHash(h, kind, inputs), d, k);
    KeysDoNotCollide(h, hashed, k, NodeKey(kind, inputs));
  }

  /** Where the execution of a node has got to. */
  datatype Phase = Asking | Executing | Storing(result: Data) | Finished(outcome: Result<Data, Failure>)

  /** The execution of one node of some program, its inputs already resolved. */
  datatype Job = Job(impl: NodeImpl, kind: u64, inputs: seq<Data>, phase: Phase)

  /** The cache, all byte strings that were ever hashed for it, and the executions. */
  datatype State = State(written: Written, hashed: set<Bytes>, jobs: seq<Job>)

  datatype Step =
    | Begin(nodes: seq<NodeImpl>, kind: u64, inputs: seq<Data>)
    | Look(job: nat, found: Option<Entry>, healthy: bool)
    | Work(job: nat)
    | Store(job: nat, stored: Option<Entry>)
    | ExportSnapshot(name: string, layers: Entry)

  predicate InPhase(s: State, job: nat, p: Phase) {
    job < |s.jobs| && s.jobs[job].phase == p
  }

  ghost predicate Enabled(h: Hashing, s: State, step: Step) {
    match step
    case Begin(nodes, kind, inputs) => Registered(nodes) && kind < |nodes| && |inputs| < U64_LIMIT
    case Look(j, found, _) =>
      InPhase(s, j, Asking) &&
      (found.Some? ==> Stored(s.written, NodeHash(h, s.jobs[j].kind, s.jobs[j].inputs), found.value))
    case Work(j) => InPhase(s, j, Executing)
    case Store(j, stored) =>
      && j < |s.jobs| && s.jobs[j].phase.Storing?
      && (stored.Some? && stored.value.Value? ==> stored.value.data == s.jobs[j].phase.result)
    case ExportSnapshot(_, _) => true
  }

  /** Numbers and strings are always healthy. */
  predicate Trusted(d: Data, healthy: bool) {
    Storable(d.Type()) && (healthy || d.IntData? || d.StringData?)
  }

  function AfterLook(found: Option<Entry>, healthy: bool): Phase {
    if found.Some? && found.value.Value? && Trusted(found.value.data, healthy) then Finished(Ok(found.value.data))
    else Executing
  }

  function AfterWork(world: World, job: Job): Phase {
    var outcome := Execute(world, job.impl, job.inputs);
    if ShouldBeCached(job.impl) && outcome.Ok? && Storable(outcome.value.Type()) then Storing(outcome.value)
    else Finished(outcome)
  }

  function SetPhase(s: State, j: nat, p: Phase): State
    requires j < |s.jobs|
  {
    s.(jobs := s.jobs[j := s.jobs[j].(phase := p)])
  }

  function Apply(h: Hashing, world: World, s: State, step: Step): State
    requires Enabled(h, s, step)
  {
    match step
    case Begin(nodes, kind, inputs) =>
      if ShouldBeCached(nodes[kind]) then
        s.(jobs := s.jobs + [Job(nodes[kind], kind, inputs, Asking)],
           hashed := s.hashed + Hashed(h, NodeKey(kind, inputs)))
      else s.(jobs := s.jobs + [Job(nodes[kind], kind, inputs, Executing)])
    case Look(j, found, healthy) => SetPhase(s, j, AfterLook(found, healthy))
    case Work(j) => SetPhase(s, j, AfterWork(world, s.jobs[j]))
    case Store(j, stored) =>
      var job := s.jobs[j];
      var after := if stored.None? then s.written
                   else Record(s.written, NodeHash(h, job.kind, job.inputs), stored.value);
      SetPhase(s.(written := after), j, Finished(Ok(job.phase.result)))
    case ExportSnapshot(name, layers) =>
      var key := SnapshotKey(name);
      s.(written := Record(s.written, h.digest(Fed(h, key)), layers), hashed := s.hashed + Hashed(h, key))
  }

  /** An execution that goes through the cache has had its key hashed; a result is the uncached one. */
  ghost predicate JobSound(h: Hashing, world: World, hashed: set<Bytes>, job: Job) {
    && |job.inputs| < U64_LIMIT
    && (ShouldBeCached(job.impl) ==>
          && job.kind < |Prelude()| && job.impl == Prelude()[job.kind].1
          && Hashed(h, NodeKey(job.kind, job.inputs)) <= hashed)
    && (job.phase.Asking? ==> ShouldBeCached(job.impl))
    && (job.phase.Storing? ==> ShouldBeCached(job.impl) && Execute(world, job.impl, job.inputs) == Ok(job.phase.result))
    && (job.phase.Finished? ==> job.phase.outcome == Execute(world, job.impl, job.inputs))
  }

  ghost predicate Inv(h: Hashing, world: World, s: State) {
    Honest(h, world, s.written, s.hashed) && forall j :: 0 <= j < |s.jobs| ==> JobSound(h, world, s.hashed, s.jobs[j])
  }

  lemma StepInv(h: Hashing, world: World, s: State, step: Step)
    requires FixedLength(h) && Apart(h, s.hashed) && Inv(h, world, s) && Enabled(h, s, step)
    ensures Inv(h, world, Apply(h, world, s, step)) && s.hashed <= Apply(h, world, s, step).hashed
  {
    hide Prelude, Execute, Fed, Hashed, NodeHash, Honest, FixedLength, Apart, ShouldBeCached;
    var after := Apply(h, world, s, step);
    HonestMore(h, world, s.written, s.hashed, after.hashed);
    match step
    case Begin(nodes, kind, inputs) =>
      if ShouldBeCached(nodes[kind]) { CachedKindsAreFixed(nodes, kind); }
    case Look(j, found, healthy) => HitIsSound(h, world, s, j, found, healthy);
    case Work(j) =>
    case Store(j, stored) => StoreIsHonest(h, world, s, j, stored);
    case ExportSnapshot(name, layers) => HonestRecord(h, world, s.written, after.hashed, SnapshotKey(name), layers);
  }

  lemma HitIsSound(h: Hashing, world: World, s: State, j: nat, found: Option<Entry>, healthy: bool)
    requires FixedLength(h) && Apart(h, s.hashed) && Inv(h, world, s) && Enabled(h, s, Look(j, found, healthy))
    ensures JobSound(h, world, s.hashed, s.jobs[j].(phase := AfterLook(found, healthy)))
  {
    hide Prelude, Execute, NodeHash, Stored, Honest, Hashed, Fed, FixedLength, Apart;
    assert JobSound(h, world, s.hashed, s.jobs[j]);
    if found.Some? && found.value.Value? {
      FoundIsYielded(h, world, s.written, s.hashed, s.jobs[j].kind, s.jobs[j].inputs, found.value.data);
    }
  }

  lemma StoreIsHonest(h: Hashing, world: World, s: State, j: nat, stored: Option<Entry>)
    requires Inv(h, world, s) && Enabled(h, s, Store(j, stored))
    ensures Honest(h, world, Apply(h, world, s, Store(j, stored)).written, s.hashed)
  {
    hide Prelude, Execute, Fed, Honest, Hashed;
    assert JobSound(h, world, s.hashed, s.jobs[j]);
    if stored.Some? {
      HonestRecord(h, world, s.written, s.hashed, NodeKey(s.jobs[j].kind, s.jobs[j].inputs), stored.value);
    }
  }

  ghost predicate Runs(h: Hashing, world: World, s: State, steps: seq<Step>, end: State)
    decreases |steps|
  {
    if steps == [] then s == end
    else Enabled(h, s, steps[0]) && Runs(h, world, Apply(h, world, s, steps[0]), steps[1..], end)
  }

  /** Hashed strings stay recorded, so the absence of collisions at the end covers the whole run. */
  lemma {:induction false} RunHashes(h: Hashing, world: World, s: State, steps: seq<Step>, end: State)
    requires Runs(h, world, s, steps, end)
    ensures s.hashed <= end.hashed
    decreases |steps|
  {
    hide Hashed, Fed, Enabled;
    if steps != [] { RunHashes(h, world, Apply(h, world, s, steps[0]), steps[1..], end); }
  }

  lemma {:induction false} RunInv(h: Hashing, world: World, s: State, steps: seq<Step>, end: State)
    requires FixedLength(h) && Apart(h, end.hashed) && Inv(h, world, s) && Runs(h, world, s, steps, end)
    ensures Inv(h, world, end)
    decreases |steps|
  {
    hide Inv, Enabled, Apply, FixedLength;
    if steps != [] {
      RunHashes(h, world, s, steps, end);
      StepInv(h, world, s, steps[0]);
      RunInv(h, world, Apply(h, world, s, steps[0]), steps[1..], end);
    }
  }

  function Cold(): State {
    State(map[], {}, [])
  }

  /** Cache transparency: starting from an empty cache, whatever programs run on it, in whatever
      interleaving and with whatever luck, a node that finishes has its uncached outcome, as long as
      none of the strings that were actually hashed collide. */
  lemma EveryJobIsUncached(h: Hashing, world: World, steps: seq<Step>, end: State, j: nat)
    requires FixedLength(h) && Runs(h, world, Cold(), steps, end) && Apart(h, end.hashed)
    requires j < |end.jobs| && end.jobs[j].phase.Finished?
    ensures end.jobs[j].phase.outcome == Execute(world, end.jobs[j].impl, end.jobs[j].inputs)
  {
    RunInv(h, world, Cold(), steps, end);
    assert JobSound(h, world, end.hashed, end.jobs[j]);
  }

  /** A node's value is computed and stored, and a second execution asks the cache. */
  lemma StoredAndAsked(h: Hashing, world: World, nodes: seq<NodeImpl>, kind: u64, inputs: seq<Data>, d: Data)
    returns (asked: State)
    requires Registered(nodes) && kind < |nodes| && ShouldBeCached(nodes[kind]) && |inputs| < U64_LIMIT
    requires Streams(inputs) == {} && Execute(world, nodes[kind], inputs) == Ok(d) && Storable(d.Type())
    ensures Runs(h, world, Cold(), [Begin(nodes, kind, inputs), Look(0, None, false), Work(0), Store(0, Some(Value(d))),
                                    Begin(nodes, kind, inputs)], asked)
    ensures asked.written == Record(map[], NodeHash(h, kind, inputs), Value(d))
    ensures asked.hashed == {Fed(h, NodeKey(kind, inputs))}
    ensures asked.jobs == [Job(nodes[kind], kind, inputs, Finished(Ok(d))), Job(nodes[kind], kind, inputs, Asking)]
  {
    hide Execute, Fed, Registered, Prelude, ShouldBeCached;
    var stored, impl := Some(Value(d)), nodes[kind];
    var hashed, key := Hashed(h, NodeKey(kind, inputs)), NodeHash(h, kind, inputs);
    assert {} + hashed == hashed && hashed + hashed == hashed == {Fed(h, NodeKey(kind, inputs))};
    var s1 := State(map[], hashed, [Job(impl, kind, inputs, Asking)]);
    var s2 := State(map[], hashed, [Job(impl, kind, inputs, Executing)]);
    var s3 := State(map[], hashed, [Job(impl, kind, inputs, Storing(d))]);
    var s4 := State(Record(map[], key, Value(d)), hashed, [Job(impl, kind, inputs, Finished(Ok(d)))]);
    asked := s4.(jobs := s4.jobs + [Job(impl, kind, inputs, Asking)]);
    assert Runs(h, world, asked, [], asked);
    RunsBefore(h, world, s4, Begin(nodes, kind, inputs), asked, [], asked);
    RunsBefore(h, world, s3, Store(0, stored), s4, [Begin(nodes, kind, inputs)], asked);
    RunsBefore(h, world, s2, Work(0), s3, [Store(0, stored), Begin(nodes, kind, inputs)], asked);
    var steps := [Work(0), Store(0, stored), Begin(nodes, kind, inputs)];
    RunsBefore(h, world, s1, Look(0, None, false), s2, steps, asked);
    RunsBefore(h, world, Cold(), Begin(nodes, kind, inputs), s1, [Look(0, None, false)] + steps, asked);
    assert [Begin(nodes, kind, inputs)] + ([Look(0, None, false)] + steps)
        == [Begin(nodes, kind, inputs), Look(0, None, false), Work(0), Store(0, stored), Begin(nodes, kind, inputs)];
  }

  /** A second execution can be served from the cache: it then ends without the node's own work. */
  lemma HitsHappen(h: Hashing, world: World, nodes: seq<NodeImpl>, kind: u64, inputs: seq<Data>, d: Data)
    returns (end: State)
    requires Registered(nodes) && kind < |nodes| && ShouldBeCached(nodes[kind]) && |inputs| < U64_LIMIT
    requires Streams(inputs) == {} && Execute(world, nodes[kind], inputs) == Ok(d) && Storable(d.Type())
    ensures var stored := Some(Value(d));
      Runs(h, world, Cold(), [Begin(nodes, kind, inputs), Look(0, None, false), Work(0), Store(0, stored),
                              Begin(nodes, kind, inputs), Look(1, stored, true)], end)
    ensures Apart(h, end.hashed) && |end.jobs| == 2 && end.jobs[1].phase == Finished(Ok(d))
  {
    hide Execute, Registered, ShouldBeCached, Runs;
    end := ThenLook(h, world, nodes, kind, inputs, d, true);
  }

  /** A container that is found but fails its health check is not used: the second execution has to do
      the node's own work. */
  lemma DeadValuesAreNotUsed(h: Hashing, world: World, nodes: seq<NodeImpl>, kind: u64, inputs: seq<Data>, d: Data)
    returns (before: State, after: State)
    requires Registered(nodes) && kind < |nodes| && ShouldBeCached(nodes[kind]) && |inputs| < U64_LIMIT
    requires Streams(inputs) == {} && Execute(world, nodes[kind], inputs) == Ok(d)
    requires (d.ContainerData? || d.ServiceData?)
    ensures var stored := Some(Value(d));
      Runs(h, world, Cold(), [Begin(nodes, kind, inputs), Look(0, None, false), Work(0), Store(0, stored),
                              Begin(nodes, kind, inputs), Look(1, stored, false)], before)
    ensures |before.jobs| == 2 && before.jobs[1].phase == Executing
    ensures Stored(before.written, NodeHash(h, kind, inputs), Value(d))
    ensures Enabled(h, before, Work(1)) && after == Apply(h, world, before, Work(1))
    ensures after.jobs[1].phase == Storing(d)
  {
    hide Execute, Registered, ShouldBeCached, Runs;
    before := ThenLook(h, world, nodes, kind, inputs, d, false);
    after := Apply(h, world, before, Work(1));
  }

  lemma ThenLook(h: Hashing, world: World, nodes: seq<NodeImpl>, kind: u64, inputs: seq<Data>, d: Data, healthy: bool)
    returns (end: State)
    requires Registered(nodes) && kind < |nodes| && ShouldBeCached(nodes[kind]) && |inputs| < U64_LIMIT
    requires Streams(inputs) == {} && Execute(world, nodes[kind], inputs) == Ok(d) && Storable(d.Type())
    ensures var stored := Some(Value(d));
      Runs(h, world, Cold(), [Begin(nodes, kind, inputs), Look(0, None, false), Work(0), Store(0, stored),
                              Begin(nodes, kind, inputs), Look(1, stored, healthy)], end)
    ensures end.written == Record(map[], NodeHash(h, kind, inputs), Value(d)) && Apart(h, end.hashed) && |end.jobs| == 2
    ensures end.jobs[1] == Job(nodes[kind], kind, inputs, AfterLook(Some(Value(d)), healthy))
  {
    hide Execute, Fed, Registered, Prelude, ShouldBeCached;
    var asked := StoredAndAsked(h, world, nodes, kind, inputs, d);
    var first := [Begin(nodes, kind, inputs), Look(0, None, false), Work(0), Store(0, Some(Value(d))),
                  Begin(nodes, kind, inputs)];
    var look := Look(1, Some(Value(d)), healthy);
    RunsAfter(h, world, Cold(), first, asked, look);
    end := Apply(h, world, asked, look);
    assert first + [look]
        == [Begin(nodes, kind, inputs), Look(0, None, false), Work(0), Store(0, Some(Value(d))),
            Begin(nodes, kind, inputs), look];
  }

  /** What was found is used only if it is a whole value that is healthy, or a number or a string; with
      anything else the node's own work comes next. */
  lemma LookDecides(h: Hashing, world: World, s: State, j: nat, found: Option<Entry>, healthy: bool)
    requires Enabled(h, s, Look(j, found, healthy))
    ensures var after := Apply(h, world, s, Look(j, found, healthy));
      && after.written == s.written && after.hashed == s.hashed && |after.jobs| == |s.jobs|
      && (forall i :: 0 <= i < |s.jobs| && i != j ==> after.jobs[i] == s.jobs[i])
      && after.jobs[j].impl == s.jobs[j].impl && after.jobs[j].inputs == s.jobs[j].inputs
      && (found.None? || found.value.Opaque? ==> after.jobs[j].phase == Executing)
      && (forall c :: found == Some(Value(ContainerData(c))) ==>
            after.jobs[j].phase == if healthy then Finished(Ok(ContainerData(c))) else Executing)
      && (forall x :: found == Some(Value(ServiceData(x))) ==>
            after.jobs[j].phase == if healthy then Finished(Ok(ServiceData(x))) else Executing)
      && (forall n :: found == Some(Value(IntData(n))) ==> after.jobs[j].phase == Finished(Ok(IntData(n))))
      && (forall t :: found == Some(Value(StringData(t))) ==> after.jobs[j].phase == Finished(Ok(StringData(t))))
  {
  }

  /** After its own work a node is finished, unless its result is to be stored first. */
  lemma WorkDecides(h: Hashing, world: World, s: State, j: nat)
    requires Enabled(h, s, Work(j))
    ensures var after, outcome := Apply(h, world, s, Work(j)), Execute(world, s.jobs[j].impl, s.jobs[j].inputs);
      && after.written == s.written && |after.jobs| == |s.jobs|
      && after.jobs[j].phase
         == (if ShouldBeCached(s.jobs[j].impl) && outcome.Ok? && !outcome.value.FileSystemData? then
               Storing(outcome.value)
             else Finished(outcome))
  {
    hide Execute, ShouldBeCached;
  }

  /** The node kinds that go through the cache. */
  lemma CachedKinds(impl: NodeImpl)
    ensures ShouldBeCached(impl) <==>
              impl in {Wrap(PullImage), Wrap(PullService), Wrap(RunCommand), Wrap(CommandOutput), Wrap(CopyInto)}
  {
  }

  lemma {:induction false} RunsAfter(h: Hashing, world: World, s: State, steps: seq<Step>, middle: State, step: Step)
    requires Runs(h, world, s, steps, middle) && Enabled(h, middle, step)
    ensures Runs(h, world, s, steps + [step], Apply(h, world, middle, step))
    decreases |steps|
  {
    hide Enabled, Apply;
    if steps == [] {
      var end := Apply(h, world, middle, step);
      assert Runs(h, world, end, [], end) && steps + [step] == [step] && [step][1..] == [];
    } else {
      assert (steps + [step])[0] == steps[0] && (steps + [step])[1..] == steps[1..] + [step];
      RunsAfter(h, world, Apply(h, world, s, steps[0]), steps[1..], middle, step);
    }
  }

  lemma RunsBefore(h: Hashing, world: World, s: State, step: Step, next: State, steps: seq<Step>, end: State)
    requires Enabled(h, s, step) && Apply(h, world, s, step) == next && Runs(h, world, next, steps, end)
    ensures Runs(h, world, s, [step] + steps, end)
  {
    hide Enabled, Apply;
    assert ([step] + steps)[1..] == steps;
  }

  /** What lies with the backend: whether a read or a write fails, and which entry a read finds; and
      whether a value that was found is healthy. */
  datatype Luck = Luck(lost: bool, pick: nat, healthy: bool, refused: bool, broken: bool, partial: Bytes)

  function Answer(w: Written, key: Bytes, luck: Luck): Option<Entry> {
    if luck.lost || key !in w || w[key] == [] then None else Some(w[key][luck.pick % |w[key]|])
  }

  function Left(d: Data, luck: Luck): Option<Entry> {
    if luck.refused then None else Some(if luck.broken then Opaque(luck.partial) else Value(d))
  }

  /** A read finds one of the entries, any of them, unless it fails; a write leaves what was written, unless
      it is refused or breaks off. */
  lemma LuckDecides(w: Written, key: Bytes, d: Data, luck: Luck)
    ensures luck.lost ==> Answer(w, key, luck) == None
    ensures Answer(w, key, luck).Some? ==> Stored(w, key, Answer(w, key, luck).value)
    ensures forall e :: Stored(w, key, e) ==>
              exists n: nat :: Answer(w, key, luck.(lost := false, pick := n)) == Some(e)
    ensures luck.refused <==> Left(d, luck) == None
    ensures !luck.refused ==> Left(d, luck) == Some(if luck.broken then Opaque(luck.partial) else Value(d))
  {
    forall e | Stored(w, key, e) ensures exists n: nat :: Answer(w, key, luck.(lost := false, pick := n)) == Some(e) {
      var n :| 0 <= n < |w[key]| && w[key][n] == e;
      assert n % |w[key]| == n;
      assert Answer(w, key, luck.(lost := false, pick := n)) == Some(e);
    }
  }

  /** The snapshots are stored under their keys. */
  ghost predicate Exported(h: Hashing, w: Written, snapshots: seq<(string, Bytes)>) {
    forall i :: 0 <= i < |snapshots| ==>
      Stored(w, h.digest(Fed(h, SnapshotKey(snapshots[i].0))), Opaque(snapshots[i].1))
  }

  lemma ExportedStays(h: Hashing, w: Written, v: Written, snapshots: seq<(string, Bytes)>)
    requires Exported(h, w, snapshots) && Keeps(w, v)
    ensures Exported(h, v, snapshots)
  {
    hide Stored, Fed;
  }

  /** A node is served from the cache or runs. */
  datatype Transition = Cached | Ran

  /** Something is found that can be used in the place of the node's work. */
  predicate Usable(found: Option<Entry>, healthy: bool) {
    match found
    case Some(Value(IntData(_))) => true
    case Some(Value(StringData(_))) => true
    case Some(Value(ContainerData(_))) => healthy
    case Some(Value(ServiceData(_))) => healthy
    case _ => false
  }

  function Exports(snapshots: seq<(string, Bytes)>): seq<Step> {
    seq(|snapshots|, i requires 0 <= i < |snapshots| => ExportSnapshot(snapshots[i].0, Opaque(snapshots[i].1)))
  }

  /** A node's own work, and storing its result after the snapshots it refers to, if it can be stored. */
  function WorkSteps(outcome: Result<Data, Failure>, snapshots: seq<(string, Bytes)>, luck: Luck): seq<Step> {
    if outcome.Err? || outcome.value.FileSystemData? then [Work(0)]
    else [Work(0)] + Exports(snapshots) + [Store(0, Left(outcome.value, luck))]
  }

  /** The steps of one execution: only a node that may be cached asks, and only what cannot be served is
      worked for. */
  function Protocol(h: Hashing, world: World, w: Written, nodes: seq<NodeImpl>, kind: u64, inputs: seq<Data>,
                    snapshots: seq<(string, Bytes)>, luck: Luck): seq<Step>
    requires kind < |nodes|
  {
    var found := Answer(w, NodeHash(h, kind, inputs), luck);
    if !ShouldBeCached(nodes[kind]) then [Begin(nodes, kind, inputs), Work(0)]
    else if Usable(found, luck.healthy) then [Begin(nodes, kind, inputs), Look(0, found, luck.healthy)]
    else
      [Begin(nodes, kind, inputs), Look(0, found, luck.healthy)]
      + WorkSteps(Execute(world, nodes[kind], inputs), snapshots, luck)
  }

  /** The cache as the engine uses it. */
  class Backend {
    var written: Written

    /** All byte strings that were ever hashed for this cache. */
    ghost var hashed: set<Bytes>

    constructor ()
      ensures written == map[] && hashed == {}
    {
      written, hashed := map[], {};
    }

    /** The cache as the state of a single execution. */
    ghost function View(jobs: seq<Job>): State
      reads this
    {
      State(written, hashed, jobs)
    }

    /** Returns one of the entries written under the key, or nothing. */
    method ReadKey(key: Bytes, luck: Luck) returns (found: Option<Entry>)
      ensures found == Answer(written, key, luck)
      ensures found.Some? ==> Stored(written, key, found.value)
    {
      if luck.lost || key !in written || written[key] == [] { return None; }
      found := Some(written[key][luck.pick % |written[key]|]);
    }

    /** Writes a value and tells what that left: nothing if the key is refused, and something
        unreadable if the write fails. */
    method WriteKey(key: Bytes, d: Data, luck: Luck) returns (left: Option<Entry>)
      modifies `written
      ensures left == Left(d, luck)
      ensures written == if left.None? then old(written) else Record(old(written), key, left.value)
      ensures Keeps(old(written), written) && (left.Some? ==> Stored(written, key, left.value))
    {
      RecordKeeps(written, written, key, if luck.broken then Opaque(luck.partial) else Value(d));
      if luck.refused { return None; }
      left := Some(if luck.broken then Opaque(luck.partial) else Value(d));
      written := Record(written, key, left.value);
    }

    /** Stores the snapshots that a value refers to. */
    method ExportExternalData(h: Hashing, world: World, snapshots: seq<(string, Bytes)>, ghost start: State,
                              ghost steps: seq<Step>, ghost jobs: seq<Job>)
      requires Honest(h, world, written, hashed) && Runs(h, world, start, steps, View(jobs))
      modifies this
      ensures Honest(h, world, written, hashed)
      ensures Runs(h, world, start, steps + Exports(snapshots), View(jobs))
      ensures Keeps(old(written), written) && Exported(h, written, snapshots)
      ensures hashed == old(hashed) + set i | 0 <= i < |snapshots| :: Fed(h, SnapshotKey(snapshots[i].0))
    {
      hide Honest, Fed, Runs, Enabled, Record, Stored, Keeps;
      ghost var done := Exports(snapshots);
      assert steps + done[..0] == steps;
      KeepsItself(written);
      for i := 0 to |snapshots|
        invariant Honest(h, world, written, hashed) && Runs(h, world, start, steps + done[..i], View(jobs))
        invariant Keeps(old(written), written) && Exported(h, written, snapshots[..i])
        invariant hashed == old(hashed) + set k | 0 <= k < i :: Fed(h, SnapshotKey(snapshots[k].0))
      {
        var key := SnapshotKey(snapshots[i].0);
        ghost var before := View(jobs);
        HonestMore(h, world, written, hashed, hashed + {Fed(h, key)});
        hashed := hashed + {Fed(h, key)};
        HonestRecord(h, world, written, hashed, key, Opaque(snapshots[i].1));
        written := Record(written, h.digest(Fed(h, key)), Opaque(snapshots[i].1));
        KeepsItself(before.written);
        RecordKeeps(before.written, before.written, h.digest(Fed(h, key)), Opaque(snapshots[i].1));
        RecordKeeps(old(written), before.written, h.digest(Fed(h, key)), Opaque(snapshots[i].1));
        ExportedStays(h, before.written, written, snapshots[..i]);
        ExportRuns(h, world, start, steps + done[..i], before, snapshots[i].0, snapshots[i].1);
        assert steps + done[..i] + [done[i]] == steps + done[..i + 1];
      }
      assert done[..|snapshots|] == done && snapshots[..|snapshots|] == snapshots;
    }

    /** Executes a node with its inputs resolved, through the cache where the node allows it: the steps are
        those of the protocol, and they are a run of the cache's state machine. */
    method ExecuteRaw(h: Hashing, world: World, nodes: seq<NodeImpl>, kind: u64, inputs: seq<Data>,
                      snapshots: seq<(string, Bytes)>, luck: Luck)
      returns (outcome: Result<Data, Failure>, transition: Transition)
      requires FixedLength(h) && Honest(h, world, written, hashed)
      requires Apart(h, hashed + Hashed(h, NodeKey(kind, inputs)))
      requires Registered(nodes) && kind < |nodes| && |inputs| < U64_LIMIT
      modifies this
      ensures outcome == Execute(world, nodes[kind], inputs)
      ensures transition == Cached <==>
                ShouldBeCached(nodes[kind]) &&
                Usable(Answer(old(written), NodeHash(h, kind, inputs), luck), luck.healthy)
      ensures Honest(h, world, written, hashed)
      ensures Runs(h, world, old(View([])), Protocol(h, world, old(written), nodes, kind, inputs, snapshots, luck),
                   View([Job(nodes[kind], kind, inputs, Finished(outcome))]))
      ensures Keeps(old(written), written)
      ensures ShouldBeCached(nodes[kind]) && transition == Ran && outcome.Ok? && !outcome.value.FileSystemData? ==>
                Exported(h, written, snapshots)
                && (!luck.refused && !luck.broken ==> Stored(written, NodeHash(h, kind, inputs), Value(outcome.value)))
      ensures old(hashed) <= hashed <= old(hashed) + Hashed(h, NodeKey(kind, inputs))
                                       + set i | 0 <= i < |snapshots| :: Fed(h, SnapshotKey(snapshots[i].0))
    {
      hide Prelude, Execute, Honest, Fed, Hashed, FixedLength, Apart, ShouldBeCached, Registered, Runs, WorkSteps,
           Stored;
      var impl := nodes[kind];
      ghost var start := View([]);
      ghost var begun := BeginRuns(h, world, start, nodes, kind, inputs);
      if !ShouldBeCached(impl) {
        outcome := Execute(world, impl, inputs);
        WorkRuns(h, world, start, [Begin(nodes, kind, inputs)], begun);
        assert [Begin(nodes, kind, inputs)] + [Work(0)] == [Begin(nodes, kind, inputs), Work(0)];
        return outcome, Ran;
      }
      CachedKindsAreFixed(nodes, kind);
      var key := FromNodeKey(h, kind, inputs);
      HonestMore(h, world, written, hashed, hashed + Hashed(h, NodeKey(kind, inputs)));
      hashed := hashed + Hashed(h, NodeKey(kind, inputs));
      var found := ReadKey(key, luck);
      ghost var looked := LookRuns(h, world, start, [Begin(nodes, kind, inputs)], begun, found, luck.healthy);
      ghost var steps := [Begin(nodes, kind, inputs), Look(0, found, luck.healthy)];
      assert [Begin(nodes, kind, inputs)] + [Look(0, found, luck.healthy)] == steps;
      if found.Some? && found.value.Value? {
        FoundIsYielded(h, world, written, hashed, kind, inputs, found.value.data);
        if Trusted(found.value.data, luck.healthy) {
          return Ok(found.value.data), Cached;
        }
      }
      assert AfterLook(found, luck.healthy) == Executing;
      outcome := RunAndStore(h, world, impl, kind, inputs, key, snapshots, luck, start, steps);
      transition := Ran;
    }

    /** Does the node's own work and stores its result if that is possible. */
    method RunAndStore(h: Hashing, world: World, impl: NodeImpl, kind: u64, inputs: seq<Data>, key: Bytes,
                       snapshots: seq<(string, Bytes)>, luck: Luck, ghost start: State, ghost steps: seq<Step>)
      returns (outcome: Result<Data, Failure>)
      requires Honest(h, world, written, hashed) && |inputs| < U64_LIMIT && key == NodeHash(h, kind, inputs)
      requires Hashed(h, NodeKey(kind, inputs)) <= hashed
      requires ShouldBeCached(impl) && kind < |Prelude()| && impl == Prelude()[kind].1
      requires Runs(h, world, start, steps, View([Job(impl, kind, inputs, Executing)]))
      modifies this
      ensures outcome == Execute(world, impl, inputs) && Honest(h, world, written, hashed)
      ensures Runs(h, world, start, steps + WorkSteps(outcome, snapshots, luck),
                   View([Job(impl, kind, inputs, Finished(outcome))]))
      ensures Keeps(old(written), written)
      ensures outcome.Ok? && !outcome.value.FileSystemData? ==>
                Exported(h, written, snapshots)
                && (Left(outcome.value, luck).Some? ==> Stored(written, key, Left(outcome.value, luck).value))
      ensures old(hashed) <= hashed
                          <= old(hashed) + set i | 0 <= i < |snapshots| :: Fed(h, SnapshotKey(snapshots[i].0))
    {
      hide Prelude, Execute, Honest, Fed, Hashed, ShouldBeCached, Runs, Exports;
      outcome := Execute(world, impl, inputs);
      WorkRuns(h, world, start, steps, View([Job(impl, kind, inputs, Executing)]));
      if outcome.Ok? && Storable(outcome.value.Type()) {
        ghost var storing := [Job(impl, kind, inputs, Storing(outcome.value))];
        ExportExternalData(h, world, snapshots, start, steps + [Work(0)], storing);
        ghost var before := View(storing);
        var left := WriteKey(key, outcome.value, luck);
        StoreRuns(h, world, start, steps + [Work(0)] + Exports(snapshots), before, left);
        assert steps + [Work(0)] + Exports(snapshots) + [Store(0, left)] == steps + WorkSteps(outcome, snapshots, luck);
        if left.Some? {
          HonestRecord(h, world, before.written, hashed, NodeKey(kind, inputs), left.value);
        }
      }
    }
  }

  lemma BeginRuns(h: Hashing, world: World, start: State, nodes: seq<NodeImpl>, kind: u64, inputs: seq<Data>)
    returns (after: State)
    requires Registered(nodes) && kind < |nodes| && |inputs| < U64_LIMIT && start.jobs == []
    ensures Runs(h, world, start, [Begin(nodes, kind, inputs)], after)
    ensures after.written == start.written
    ensures after.hashed
         == if ShouldBeCached(nodes[kind]) then start.hashed + Hashed(h, NodeKey(kind, inputs)) else start.hashed
    ensures after.jobs == [Job(nodes[kind], kind, inputs, if ShouldBeCached(nodes[kind]) then Asking else Executing)]
  {
    hide Fed, Hashed, Registered, ShouldBeCached;
    var step := Begin(nodes, kind, inputs);
    after := Apply(h, world, start, step);
    assert Runs(h, world, after, [], after) && [step] + [] == [step];
    RunsBefore(h, world, start, step, after, [], after);
  }

  lemma LookRuns(h: Hashing, world: World, start: State, steps: seq<Step>, s: State, found: Option<Entry>,
                 healthy: bool)
    returns (after: State)
    requires Runs(h, world, start, steps, s) && Enabled(h, s, Look(0, found, healthy)) && |s.jobs| == 1
    ensures Runs(h, world, start, steps + [Look(0, found, healthy)], after)
    ensures after == s.(jobs := [s.jobs[0].(phase := AfterLook(found, healthy))])
  {
    hide Runs, Stored, NodeHash;
    RunsAfter(h, world, start, steps, s, Look(0, found, healthy));
    after := Apply(h, world, s, Look(0, found, healthy));
  }

  lemma WorkRuns(h: Hashing, world: World, start: State, steps: seq<Step>, s: State)
    requires Runs(h, world, start, steps, s) && InPhase(s, 0, Executing) && |s.jobs| == 1
    ensures Runs(h, world, start, steps + [Work(0)], s.(jobs := [s.jobs[0].(phase := AfterWork(world, s.jobs[0]))]))
  {
    hide Runs, Execute, AfterWork;
    RunsAfter(h, world, start, steps, s, Work(0));
    var job := s.jobs[0].(phase := AfterWork(world, s.jobs[0]));
    assert s.jobs[0 := job] == [job];
  }

  lemma StoreRuns(h: Hashing, world: World, start: State, steps: seq<Step>, s: State, left: Option<Entry>)
    requires Runs(h, world, start, steps, s) && Enabled(h, s, Store(0, left)) && |s.jobs| == 1
    ensures var job := s.jobs[0];
      var written := if left.None? then s.written else Record(s.written, NodeHash(h, job.kind, job.inputs), left.value);
      Runs(h, world, start, steps + [Store(0, left)],
           State(written, s.hashed, [job.(phase := Finished(Ok(job.phase.result)))]))
  {
    hide Runs, NodeHash;
    RunsAfter(h, world, start, steps, s, Store(0, left));
    var job := s.jobs[0].(phase := Finished(Ok(s.jobs[0].phase.result)));
    assert s.jobs[0 := job] == [job];
  }

  lemma ExportRuns(h: Hashing, world: World, start: State, steps: seq<Step>, s: State, name: string, layers: Bytes)
    requires Runs(h, world, start, steps, s)
    ensures var key := SnapshotKey(name);
      Runs(h, world, start, steps + [ExportSnapshot(name, Opaque(layers))],
           State(Record(s.written, h.digest(Fed(h, key)), Opaque(layers)), s.hashed + {Fed(h, key)}, s.jobs))
  {
    hide Runs, Fed;
    var step := ExportSnapshot(name, Opaque(layers));
    RunsAfter(h, world, start, steps, s, step);
    assert Hashed(h, SnapshotKey(name)) == {Fed(h, SnapshotKey(name))};
  }
}
