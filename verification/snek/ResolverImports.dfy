/** Imports: every file is resolved once, after all files that it imports, so a program that resolves
    has no import cycle. */
module ResolverImports {
  import opened Wrappers
  import opened DataModel
  import Ast
  import opened Resolvers

  type Cache = map<string, Option<nat>>

  predicate ResolvedBelow(cache: Cache, file: string, bound: nat) {
    file in cache && cache[file].Some? && cache[file].value < bound
  }

  /** All that the statements import, in nested functions too, is resolved to a module below `bound`. */
  predicate ImportsBelow(disk: Ast.Disk, cache: Cache, file: string, stmts: seq<Ast.Statement>, bound: nat)
    decreases stmts, 0
  {
    stmts == [] ||
    (ImportBelow(disk, cache, file, stmts[0], bound) && ImportsBelow(disk, cache, file, stmts[1..], bound))
  }

  predicate ImportBelow(disk: Ast.Disk, cache: Cache, file: string, stmt: Ast.Statement, bound: nat)
    decreases stmt, 1
  {
    match stmt
    case Import(_, path, _) => ResolvedBelow(cache, disk.target(file, path), bound)
    case Def(_, f) => ImportsBelow(disk, cache, file, f.body, bound)
    case _ => true
  }

  /** The statements import the file `g`. */
  predicate ImportsFile(disk: Ast.Disk, file: string, stmts: seq<Ast.Statement>, g: string)
    decreases stmts, 0
  {
    stmts != [] && (StatementImports(disk, file, stmts[0], g) || ImportsFile(disk, file, stmts[1..], g))
  }

  predicate StatementImports(disk: Ast.Disk, file: string, stmt: Ast.Statement, g: string)
    decreases stmt, 1
  {
    match stmt
    case Import(_, path, _) => disk.target(file, path) == g
    case Def(_, f) => ImportsFile(disk, file, f.body, g)
    case _ => false
  }

  /** Resolved files and modules correspond one to one, and imports go to earlier modules. */
  ghost predicate Layered(disk: Ast.Disk, st: State) {
    && (forall f :: f in st.moduleCache && st.moduleCache[f].Some? ==> Layer(disk, st.moduleCache, f, |st.modules|))
    && (forall f, g :: f in st.moduleCache && g in st.moduleCache && f != g && st.moduleCache[f].Some? ==>
          st.moduleCache[f] != st.moduleCache[g])
    && (forall i :: 0 <= i < |st.modules| ==> Owned(st.moduleCache, i))
  }

  ghost predicate Layer(disk: Ast.Disk, cache: Cache, f: string, modules: nat)
    requires f in cache && cache[f].Some?
  {
    f in disk.files && cache[f].value < modules && ImportsBelow(disk, cache, f, disk.files[f], cache[f].value)
  }

  ghost predicate Owned(cache: Cache, i: nat) {
    exists f :: f in cache && cache[f] == Some(i)
  }

  /** Resolved files stay resolved. */
  ghost predicate Keeps(a: Cache, b: Cache) {
    forall f :: f in a && a[f].Some? ==> f in b && b[f] == a[f]
  }

  lemma {:induction false} ImportsStay(disk: Ast.Disk, a: Cache, b: Cache, file: string, stmts: seq<Ast.Statement>,
                                       n: nat, m: nat)
    requires ImportsBelow(disk, a, file, stmts, n) && Keeps(a, b) && n <= m
    ensures ImportsBelow(disk, b, file, stmts, m)
    decreases stmts, 0
  {
    if stmts != [] {
      ImportStays(disk, a, b, file, stmts[0], n, m);
      ImportsStay(disk, a, b, file, stmts[1..], n, m);
    }
  }

  lemma {:induction false} ImportStays(disk: Ast.Disk, a: Cache, b: Cache, file: string, stmt: Ast.Statement, n: nat,
                                       m: nat)
    requires ImportBelow(disk, a, file, stmt, n) && Keeps(a, b) && n <= m
    ensures ImportBelow(disk, b, file, stmt, m)
    decreases stmt, 1
  {
    if stmt.Def? { ImportsStay(disk, a, b, file, stmt.function_.body, n, m); }
  }

  lemma SameLayers(disk: Ast.Disk, a: State, b: State)
    requires Layered(disk, a) && b.modules == a.modules && b.moduleCache == a.moduleCache
    ensures Layered(disk, b)
  {
  }

  lemma {:induction false} StatementLayers(disk: Ast.Disk, st: State, scope: Scope, target: Target, file: string,
                                           stmt: Ast.Statement)
    requires Layered(disk, st) && ResolveStatement(disk, st, scope, target, file, stmt).Ok?
    ensures var end := ResolveStatement(disk, st, scope, target, file, stmt).value.state;
      Layered(disk, end) && ImportBelow(disk, end.moduleCache, file, stmt, |end.modules|)
    decreases disk.files.Keys - st.moduleCache.Keys, 1, stmt, 1
  {
    hide Layered, StoresGrow, ResolveExpression, ResolveFunction, GetModule, ImportsBelow;
    match stmt
    case Return(e) => SameLayers(disk, st, ResolveExpression(st, scope, target, e).value.state);
    case Import(exported, path, name) => ModuleLayers(disk, st, disk.target(file, path));
    case Assign(exported, e, name) => SameLayers(disk, st, ResolveExpression(st, scope, target, e).value.state);
    case Def(exported, f) => FunctionLayers(disk, st, scope, file, f);
  }

  lemma {:induction false} StatementsLayers(disk: Ast.Disk, st: State, scope: Scope, target: Target, file: string,
                                            stmts: seq<Ast.Statement>)
    requires Layered(disk, st) && ResolveStatements(disk, st, scope, target, file, stmts).Ok?
    ensures var end := ResolveStatements(disk, st, scope, target, file, stmts).value.state;
      Layered(disk, end) && ImportsBelow(disk, end.moduleCache, file, stmts, |end.modules|)
    decreases disk.files.Keys - st.moduleCache.Keys, 1, stmts, 0
  {
    hide Layered, ResolveStatement, ImportBelow;
    if stmts != [] {
      StatementLayers(disk, st, scope, target, file, stmts[0]);
      var next := ResolveStatement(disk, st, scope, target, file, stmts[0]).value;
      StatementsLayers(disk, next.state, next.value, next.target, file, stmts[1..]);
      var end := ResolveStatements(disk, next.state, next.value, next.target, file, stmts[1..]).value.state;
      ImportStays(disk, next.state.moduleCache, end.moduleCache, file, stmts[0], |next.state.modules|, |end.modules|);
    }
  }

  lemma {:induction false} FunctionLayers(disk: Ast.Disk, st: State, scope: Scope, file: string, f: Ast.Function)
    requires Layered(disk, st) && ResolveFunction(disk, st, scope, file, f).Ok?
    ensures var end := ResolveFunction(disk, st, scope, file, f).value.0;
      Layered(disk, end) && ImportsBelow(disk, end.moduleCache, file, f.body, |end.modules|)
    decreases disk.files.Keys - st.moduleCache.Keys, 1, f, 0
  {
    hide Layered, StoresGrow, ImportsBelow, ResolveRequired, ResolveDefaults, ResolveStatements;
    var (bound, inner, required) := ResolveRequired(st, scope.Child(), f.required);
    var (ready, outer, defaults) := ResolveDefaults(bound, inner, f.defaults).value;
    SameLayers(disk, st, ready);
    StatementsLayers(disk, ready, outer, FunctionTarget(None, []), file, f.body);
    SameLayers(disk, ResolveStatements(disk, ready, outer, FunctionTarget(None, []), file, f.body).value.state,
               ResolveFunction(disk, st, scope, file, f).value.0);
  }

  lemma {:induction false} ModuleLayers(disk: Ast.Disk, st: State, file: string)
    requires Layered(disk, st) && GetModule(disk, st, file).Ok?
    ensures var end := GetModule(disk, st, file).value.0;
      Layered(disk, end) && ResolvedBelow(end.moduleCache, file, |end.modules|)
    decreases disk.files.Keys - st.moduleCache.Keys, 0
  {
    hide ResolveStatements, PreludeScope, StoresGrow, ImportsBelow;
    if file in st.moduleCache {
      assert Layer(disk, st.moduleCache, file, |st.modules|);
    } else {
      var loading := st.(moduleCache := st.moduleCache[file := None]);
      assert file in disk.files.Keys - st.moduleCache.Keys;
      Loading(disk, st, file);
      StatementsLayers(disk, loading, PreludeScope().Child(), ModuleTarget(map[]), file, disk.files[file]);
      var s := ResolveStatements(disk, loading, PreludeScope().Child(), ModuleTarget(map[]), file,
                                 disk.files[file]).value;
      Loaded(disk, s.state, file, s.target.exports);
    }
  }

  lemma Loading(disk: Ast.Disk, st: State, file: string)
    requires Layered(disk, st) && file !in st.moduleCache
    ensures Layered(disk, st.(moduleCache := st.moduleCache[file := None]))
  {
    hide ImportsBelow;
    var cache := st.moduleCache[file := None];
    forall f | f in cache && cache[f].Some? ensures Layer(disk, cache, f, |st.modules|) {
      assert Layer(disk, st.moduleCache, f, |st.modules|);
      ImportsStay(disk, st.moduleCache, cache, f, disk.files[f], cache[f].value, cache[f].value);
    }
    forall i | 0 <= i < |st.modules| ensures Owned(cache, i) {
      assert Owned(st.moduleCache, i);
      var f :| f in st.moduleCache && st.moduleCache[f] == Some(i);
      assert cache[f] == Some(i);
    }
  }

  lemma Loaded(disk: Ast.Disk, s: State, file: string, exports: Items)
    requires Layered(disk, s) && file in disk.files && file in s.moduleCache && s.moduleCache[file] == None
    requires ImportsBelow(disk, s.moduleCache, file, disk.files[file], |s.modules|)
    ensures Layered(disk, s.(modules := s.modules + [exports], moduleCache := s.moduleCache[file := Some(|s.modules|)]))
  {
    hide ImportsBelow;
    var n := |s.modules|;
    var cache := s.moduleCache[file := Some(n)];
    forall f | f in cache && cache[f].Some? ensures Layer(disk, cache, f, n + 1) && (f != file ==> cache[f].value < n) {
      if f != file { assert Layer(disk, s.moduleCache, f, n); }
      ImportsStay(disk, s.moduleCache, cache, f, disk.files[f], cache[f].value, cache[f].value);
    }
    forall i | 0 <= i < n + 1 ensures Owned(cache, i) {
      if i < n {
        assert Owned(s.moduleCache, i);
        var f :| f in s.moduleCache && s.moduleCache[f] == Some(i);
        assert cache[f] == Some(i);
      } else {
        assert cache[file] == Some(i);
      }
    }
  }

  /** Files that were resolved and the modules they became. */
  function ModulesOf(disk: Ast.Disk, file: string): State
    requires GetModule(disk, Initial(), file).Ok?
  {
    GetModule(disk, Initial(), file).value.0
  }

  /** Each file that a program needs is resolved exactly once, after what it imports. */
  lemma EachFileOnce(disk: Ast.Disk, file: string, entry: string)
    requires Resolve(disk, file, entry).Ok?
    ensures Layered(disk, ModulesOf(disk, file))
    ensures ResolvedBelow(ModulesOf(disk, file).moduleCache, file, |ModulesOf(disk, file).modules|)
  {
    hide GetModule;
    ModuleLayers(disk, Initial(), file);
  }

  lemma {:induction false} ImportedIsBelow(disk: Ast.Disk, cache: Cache, file: string, stmts: seq<Ast.Statement>,
                                           bound: nat, g: string)
    requires ImportsBelow(disk, cache, file, stmts, bound) && ImportsFile(disk, file, stmts, g)
    ensures ResolvedBelow(cache, g, bound)
    decreases stmts, 0
  {
    if StatementImports(disk, file, stmts[0], g) {
      StatementIsBelow(disk, cache, file, stmts[0], bound, g);
    } else {
      ImportedIsBelow(disk, cache, file, stmts[1..], bound, g);
    }
  }

  lemma {:induction false} StatementIsBelow(disk: Ast.Disk, cache: Cache, file: string, stmt: Ast.Statement, bound: nat,
                                            g: string)
    requires ImportBelow(disk, cache, file, stmt, bound) && StatementImports(disk, file, stmt, g)
    ensures ResolvedBelow(cache, g, bound)
    decreases stmt, 1
  {
    if stmt.Def? { ImportedIsBelow(disk, cache, file, stmt.function_.body, bound, g); }
  }

  /** Each file on the path imports the next one. */
  ghost predicate ImportPath(disk: Ast.Disk, path: seq<string>) {
    forall i {:trigger path[i]} :: 0 <= i < |path| - 1 ==>
      path[i] in disk.files && ImportsFile(disk, path[i], disk.files[path[i]], path[i + 1])
  }

  lemma {:induction false} PathDescends(disk: Ast.Disk, st: State, path: seq<string>)
    requires Layered(disk, st) && ImportPath(disk, path) && |path| >= 2
    requires path[0] in st.moduleCache && st.moduleCache[path[0]].Some?
    ensures ResolvedBelow(st.moduleCache, path[|path| - 1], st.moduleCache[path[0]].value)
    decreases |path|
  {
    hide ImportsBelow, ImportsFile;
    assert Layer(disk, st.moduleCache, path[0], |st.modules|);
    ImportedIsBelow(disk, st.moduleCache, path[0], disk.files[path[0]], st.moduleCache[path[0]].value, path[1]);
    if |path| > 2 {
      assert forall i :: 0 <= i < |path[1..]| ==> path[1..][i] == path[i + 1];
      PathDescends(disk, st, path[1..]);
    }
  }

  /** A program in which a file imports itself, directly or through others, does not resolve. */
  lemma CyclesAreErrors(disk: Ast.Disk, file: string, entry: string, path: seq<string>, cycle: seq<string>)
    requires ImportPath(disk, path) && path != [] && path[0] == file
    requires ImportPath(disk, cycle) && |cycle| >= 2 && cycle[0] == path[|path| - 1] == cycle[|cycle| - 1]
    ensures Resolve(disk, file, entry).Err?
  {
    hide GetModule, Layered, ImportPath;
    if Resolve(disk, file, entry).Ok? {
      EachFileOnce(disk, file, entry);
      var st := ModulesOf(disk, file);
      if |path| >= 2 { PathDescends(disk, st, path); }
      PathDescends(disk, st, cycle);
    }
  }
}
