/** From source files to graph: the resolver's output is always compilable, denotes what the source
    denotes, and the compiled graph unfolds to exactly that. */
module Pipeline {
  import opened Wrappers
  import opened DataModel
  import Ast
  import Ir
  import Source
  import G = Graphs
  import Compilers
  import opened Resolvers
  import opened ResolverRanges
  import opened ResolverMeaning
  import opened ResolverFunctions
  import opened ResolverModules
  import opened Structure
  import opened ResolverSites
  import opened ResolverScopes
  import ResolverMethods

  lemma InitialIsValid()
    ensures Valid(Initial()) && Grows(Initial(), Initial())
  {
    hide Prelude;
    PreludeDistinct();
  }

  lemma {:induction false} BuiltinsBindNothing(fs: seq<Ir.Function>)
    requires forall f :: 0 <= f < |fs| ==> fs[f].Builtin?
    ensures AllSymbols(fs) == []
    decreases |fs|
  {
    if fs != [] { BuiltinsBindNothing(fs[..|fs| - 1]); }
  }

  lemma InitialSites()
    ensures Sites(Initial(), multiset{})
  {
    hide Prelude;
    BuiltinsBindNothing(Initial().functions);
  }

  lemma InitialShape()
    ensures Shape(Initial(), map[]) && AllPlaced(UnitOf(Initial(), map[]), 0, |Initial().functions|)
  {
    hide Prelude;
  }

  /** The run of the whole top level. */
  function Whole(end: State): Run {
    Run(end, |end.functions|, map[], map[], map[])
  }

  lemma WholeStarts(end: State)
    requires Grows(Initial(), end)
    ensures Ready(Whole(end), end, TOP) && Running(Whole(end), Initial(), TOP, map[], map[])
    ensures Lockstep(Initial(), map[], {}, end, map[])
  {
    hide Prelude;
  }

  /** Resolution preserves meaning: the IR denotes what the source denotes, type errors included,
      and running it never reads a symbol before it is bound nor calls a later function. */
  lemma ResolutionPreservesMeaning(disk: Ast.Disk, file: string, entry: string)
    requires Resolve(disk, file, entry).Ok?
    ensures Ir.Meaning(Resolve(disk, file, entry).value) == Source.Program(disk, file, entry) != Err(Ir.Undefined)
  {
    hide Prelude, Ready, Running, Lockstep, Initial, Valid, Source.Load, Ir.Exec, GetModule;
    InitialIsValid();
    var (end, index) := GetModule(disk, Initial(), file).value;
    var w := Whole(end);
    WholeStarts(end);
    var known, env := ModuleMeaning(w, disk, Initial(), file, map[], {}, map[], map[]);
    var m := Source.Load(disk, map[], {}, file);
    if m.Ok? {
      RunningRan(w, end, TOP, known, env);
      RunningWithin(w, end, TOP, known, env);
      LoadedStands(end, end, m.value, {}, file, known);
      assert Stands(end.modules[index][entry], m.value[file][entry], end, known);
    }
  }

  /** The resolver's output is always compilable: every symbol is bound at one place, every call goes to
      an earlier function, and every use follows its definition, whether or not it is ever run. */
  lemma ResolvedIsCompilable(disk: Ast.Disk, file: string, entry: string)
    requires Resolve(disk, file, entry).Ok?
    ensures Compilable(Resolve(disk, file, entry).value)
  {
    hide Prelude, Initial, GetModule, Sites, Shape, Placed;
    InitialSites();
    InitialShape();
    var (end, index) := GetModule(disk, Initial(), file).value;
    ModuleSites(disk, Initial(), file, multiset{});
    SitesAreDifferent(end);
    var lexical := ModuleScopes(disk, Initial(), map[], file);
    ShapeIsClosed(end, lexical);
    LabelIsBound(end, lexical, index, entry);
    NoopStays(end);
  }

  lemma SitesAreDifferent(st: State)
    requires Sites(st, multiset{})
    ensures PairwiseDifferent(BodySymbols(st.topLevel) + AllSymbols(st.functions))
  {
    hide BodySymbols, AllSymbols;
    var all := BodySymbols(st.topLevel) + AllSymbols(st.functions);
    assert multiset(all) == multiset{} + Bindings(st);
    OnceIsDifferent(all, st.next);
  }

  lemma ShapeIsClosed(st: State, lexical: Lexical)
    requires Shape(st, lexical) && AllPlaced(UnitOf(st, lexical), 0, |st.functions|)
    ensures Closed(Unit(st.functions, st.topLevel, lexical), |st.nodes|)
  {
    hide FunctionClosed, BodyClosed, Placed;
  }

  lemma LabelIsBound(st: State, lexical: Lexical, index: nat, entry: string)
    requires Shape(st, lexical) && index < |st.modules| && entry in st.modules[index] && st.modules[index][entry].Label?
    ensures st.modules[index][entry].symbol in NameSet(st.topLevel)
  {
    hide NameSet;
    assert ItemsSeen(st.modules[index], st, lexical);
  }

  /** The resolver's output meets everything the compiler takes for granted. */
  lemma ResolvedIsWellFormed(disk: Ast.Disk, file: string, entry: string)
    requires Resolve(disk, file, entry).Ok?
    ensures Ir.WellFormed(Resolve(disk, file, entry).value)
    ensures G.Distinct(Resolve(disk, file, entry).value.context.nodes)
  {
    hide Prelude, Initial, GetModule, Compilable, Ir.WellFormed;
    ResolvedIsCompilable(disk, file, entry);
    CompilableIsWellFormed(Resolve(disk, file, entry).value);
    InitialIsValid();
    InitialFits();
    ModuleInRange(disk, Initial(), file);
  }

  lemma InitialFits()
    ensures |Prelude()| <= |Initial().functions|
  {
    hide Prelude;
  }

  lemma NoopStays(end: State)
    requires Grows(Initial(), end)
    ensures NOOP < |end.nodes| && end.nodes[NOOP] == Noop
  {
    assert Initial().nodes[0] == Prelude()[0].1 == Noop;
  }

  datatype CompileError = Unresolved(resolveError: ResolveError) | IllTyped(typeError: TypeError)

  /** What compiling a program must yield: the term that the source denotes at the start node of a
      graph with maximal sharing, or the type error that the source has. */
  ghost predicate Faithful(disk: Ast.Disk, file: string, entry: string, r: Result<Compilers.Compiled, CompileError>) {
    match Resolve(disk, file, entry)
    case Err(e) => r == Err(Unresolved(e))
    case Ok(p) =>
      match Source.Program(disk, file, entry)
      case Err(x) => x.Type? && r == Err(IllTyped(x.error))
      case Ok(v) =>
        && r.Ok? && r.value.nodes == p.context.nodes
        && G.Ordered(r.value.nodes, r.value.graph) && r.value.start < |r.value.graph|
        && G.Distinct(r.value.nodes) && G.Distinct(r.value.graph)
        && G.Unfold(r.value.nodes, r.value.graph, r.value.start) == v.term
  }

  /** Compiles a program from its source files. */
  method CompileProgram(disk: Ast.Disk, file: string, entry: string)
    returns (r: Result<Compilers.Compiled, CompileError>)
    ensures Faithful(disk, file, entry, r)
  {
    var resolved := ResolverMethods.Resolve(disk, file, entry);
    if resolved.Err? { return Err(Unresolved(resolved.error)); }
    ResolutionPreservesMeaning(disk, file, entry);
    ResolvedIsWellFormed(disk, file, entry);
    var compiled := Compilers.Compile(resolved.value);
    match compiled {
      case Ok(out) => r := Ok(out);
      case Err(e) => r := Err(IllTyped(e));
    }
  }
}
