/** Laws of the source language: what a name stands for after each statement, which value a function body
    has, and what a program denotes. */
module SourceLaws {
  import opened Wrappers
  import opened DataModel
  import opened Ast
  import opened Source
  import Ir

  /** `name` and every path that starts with it stand for `m` and what is in it; all other paths stand for
      what they did before. */
  ghost predicate Binds(env: Env, next: Env, name: string, m: Meaning) {
    && (forall rest: seq<string> :: EvalPath(next, ItemPath(name, rest)) == Follow(m, rest))
    && forall path: ItemPath :: path.base != name ==> EvalPath(next, path) == EvalPath(env, path)
  }

  lemma InsertBinds(env: Env, name: string, m: Meaning)
    ensures Binds(env, env[name := m], name, m)
  {
  }

  /** A label can be replaced by the expression that it was bound to. */
  lemma LabelStandsFor(env: Env, next: Env, name: string, e: Expression, v: Val)
    requires EvalExpression(env, e) == Ok(v) && Binds(env, next, name, LabelV(v))
    ensures EvalExpression(next, Label(ItemPath(name, []))) == EvalExpression(env, e)
    ensures forall part: string, rest: seq<string> ::
              EvalExpression(next, Label(ItemPath(name, [part] + rest))) == Err(Ir.Undefined)
  {
    forall part: string, rest: seq<string>
      ensures EvalExpression(next, Label(ItemPath(name, [part] + rest))) == Err(Ir.Undefined)
    {
      assert EvalPath(next, ItemPath(name, [part] + rest)) == Follow(LabelV(v), [part] + rest);
    }
  }

  /** Behind the name of an import there is exactly what the file exports. */
  lemma ImportStandsFor(env: Env, next: Env, name: string, exports: Env, part: string, rest: seq<string>)
    requires Binds(env, next, name, ModuleV(exports))
    ensures EvalPath(next, ItemPath(name, [part] + rest)) == EvalPath(exports, ItemPath(part, rest))
    ensures EvalLabel(next, ItemPath(name, [])) == Err(Ir.Undefined)
  {
    assert ([part] + rest)[0] == part && ([part] + rest)[1..] == rest;
    assert EvalPath(next, ItemPath(name, [])) == Follow(ModuleV(exports), []);
  }

  /** A call of a defined function runs its body over the scope that was there before the definition, in
      which the function itself is not yet defined. */
  lemma DefinitionStandsFor(disk: Disk, loaded: Loaded, file: string, env: Env, next: Env, f: Function,
                            arguments: seq<Expression>)
    requires Binds(env, next, f.name, Closure(disk, loaded, file, env, f))
    ensures var args, call := EvalArguments(next, arguments), Node(ItemPath(f.name, []), arguments, []);
      var r := EvalNode(next, call, []);
      && (args.Ok? ==> r == Apply(disk, loaded, file, env, f, args.value, []))
      && (args.Err? ==> r == Err(args.error))
  {
    assert EvalPath(next, ItemPath(f.name, [])) == Follow(Closure(disk, loaded, file, env, f), []);
    var args := EvalArguments(next, arguments);
    if args.Ok? { assert [] + args.value == args.value; }
  }

  /** A statement of a function body binds its name, and returning binds nothing. */
  lemma StatementBinds(disk: Disk, loaded: Loaded, file: string, env: Env, result: Option<Val>, stmt: Statement)
    requires EvalStatement(disk, loaded, file, env, result, stmt).Ok?
    ensures var next := EvalStatement(disk, loaded, file, env, result, stmt).value.0;
      && (stmt.Return? ==> next == env)
      && (stmt.Assign? ==> EvalExpression(env, stmt.value).Ok? && !stmt.exported
                           && Binds(env, next, stmt.name, LabelV(EvalExpression(env, stmt.value).value)))
      && (stmt.Import? ==> disk.target(file, stmt.path) in loaded && !stmt.exported
                           && Binds(env, next, stmt.name, ModuleV(loaded[disk.target(file, stmt.path)])))
      && (stmt.Def? ==> !stmt.exported
                        && Binds(env, next, stmt.function_.name, Closure(disk, loaded, file, env, stmt.function_)))
  {
    hide EvalExpression, Closure, EvalPath;
    match stmt
    case Return(_) =>
    case Assign(_, e, name) => InsertBinds(env, name, LabelV(EvalExpression(env, e).value));
    case Import(_, path, name) => InsertBinds(env, name, ModuleV(loaded[disk.target(file, path)]));
    case Def(_, f) => InsertBinds(env, f.name, Closure(disk, loaded, file, env, f));
  }

  /** The scope that the statements of a function body leave. */
  function BodyScope(disk: Disk, loaded: Loaded, file: string, env: Env, stmts: seq<Statement>): Result<Env, Ir.Fault>
    decreases |stmts|
  {
    if stmts == [] then Ok(env)
    else
      var (next, _) :- EvalStatement(disk, loaded, file, env, None, stmts[0]);
      BodyScope(disk, loaded, file, next, stmts[1..])
  }

  predicate OnlyReturn(stmts: seq<Statement>, i: nat) {
    && i < |stmts| && stmts[i].Return?
    && forall k :: 0 <= k < |stmts| && k != i ==> !stmts[k].Return?
  }

  ghost predicate Returns(disk: Disk, loaded: Loaded, file: string, env: Env, stmts: seq<Statement>, i: nat, v: Val) {
    && OnlyReturn(stmts, i)
    && BodyScope(disk, loaded, file, env, stmts[..i]).Ok?
    && EvalExpression(BodyScope(disk, loaded, file, env, stmts[..i]).value, stmts[i].result) == Ok(v)
  }

  /** A body has a value if and only if all of its statements can be run and exactly one of them returns:
      the value of that expression in the scope left by the statements before it. */
  lemma BodyIff(disk: Disk, loaded: Loaded, file: string, env: Env, stmts: seq<Statement>, v: Val)
    ensures EvalBody(disk, loaded, file, env, None, stmts) == Ok(v) <==>
              BodyScope(disk, loaded, file, env, stmts).Ok?
              && exists i: nat :: Returns(disk, loaded, file, env, stmts, i, v)
  {
    if EvalBody(disk, loaded, file, env, None, stmts) == Ok(v) {
      var i := FindReturn(disk, loaded, file, env, stmts, v);
    } else if BodyScope(disk, loaded, file, env, stmts).Ok? {
      forall i: nat | Returns(disk, loaded, file, env, stmts, i, v) ensures false {
        ReturnHolds(disk, loaded, file, env, stmts, i, v);
      }
    }
  }

  lemma {:induction false} AfterReturn(disk: Disk, loaded: Loaded, file: string, env: Env, u: Val,
                                       stmts: seq<Statement>)
    ensures EvalBody(disk, loaded, file, env, Some(u), stmts).Ok? <==>
              BodyScope(disk, loaded, file, env, stmts).Ok? && forall k :: 0 <= k < |stmts| ==> !stmts[k].Return?
    ensures EvalBody(disk, loaded, file, env, Some(u), stmts).Ok? ==>
              EvalBody(disk, loaded, file, env, Some(u), stmts) == Ok(u)
    decreases |stmts|
  {
    hide EvalExpression, Closure;
    if stmts != [] {
      var step := EvalStatement(disk, loaded, file, env, None, stmts[0]);
      if step.Ok? { AfterReturn(disk, loaded, file, step.value.0, u, stmts[1..]); }
      assert forall k :: 0 < k < |stmts| ==> stmts[k] == stmts[1..][k - 1];
    }
  }

  lemma {:induction false} FindReturn(disk: Disk, loaded: Loaded, file: string, env: Env, stmts: seq<Statement>, v: Val)
    returns (i: nat)
    requires EvalBody(disk, loaded, file, env, None, stmts) == Ok(v)
    ensures BodyScope(disk, loaded, file, env, stmts).Ok? && Returns(disk, loaded, file, env, stmts, i, v)
    decreases |stmts|
  {
    hide EvalExpression, Closure;
    var (next, returned) := EvalStatement(disk, loaded, file, env, None, stmts[0]).value;
    assert forall k :: 0 < k < |stmts| ==> stmts[k] == stmts[1..][k - 1];
    if stmts[0].Return? {
      i := 0;
      AfterReturn(disk, loaded, file, next, returned.value, stmts[1..]);
      assert stmts[..0] == [];
    } else {
      var k := FindReturn(disk, loaded, file, next, stmts[1..], v);
      i := k + 1;
      assert stmts[..i][1..] == stmts[1..][..i - 1];
    }
  }

  lemma {:induction false} ReturnHolds(disk: Disk, loaded: Loaded, file: string, env: Env, stmts: seq<Statement>,
                                       i: nat, v: Val)
    requires BodyScope(disk, loaded, file, env, stmts).Ok? && Returns(disk, loaded, file, env, stmts, i, v)
    ensures EvalBody(disk, loaded, file, env, None, stmts) == Ok(v)
    decreases |stmts|
  {
    hide EvalExpression, Closure;
    var (next, returned) := EvalStatement(disk, loaded, file, env, None, stmts[0]).value;
    assert forall k :: 0 < k < |stmts| ==> stmts[k] == stmts[1..][k - 1];
    if i == 0 {
      assert stmts[..0] == [];
      AfterReturn(disk, loaded, file, next, v, stmts[1..]);
    } else {
      assert stmts[..i][1..] == stmts[1..][..i - 1];
      ReturnHolds(disk, loaded, file, next, stmts[1..], i - 1, v);
    }
  }

  /** What has been loaded, what is in scope and what is exported. */
  type FileState = Result<(Loaded, Env, Env), Ir.Fault>

  /** Where the statements of a file leave off. */
  function FileScope(disk: Disk, loaded: Loaded, loading: set<string>, file: string, env: Env, exports: Env,
                     stmts: seq<Statement>): FileState
    decreases |stmts|
  {
    if stmts == [] then Ok((loaded, env, exports))
    else
      var (after, next, exported) :- LoadStatement(disk, loaded, loading, file, env, exports, stmts[0]);
      FileScope(disk, after, loading, file, next, exported, stmts[1..])
  }

  lemma {:induction false} LoadStatementsIs(disk: Disk, loaded: Loaded, loading: set<string>, file: string, env: Env,
                                            exports: Env, stmts: seq<Statement>)
    ensures var r, s := LoadStatements(disk, loaded, loading, file, env, exports, stmts),
                        FileScope(disk, loaded, loading, file, env, exports, stmts);
      (r.Ok? <==> s.Ok?) && (r.Ok? ==> r.value == (s.value.0, s.value.2)) && (r.Err? ==> r.error == s.error)
    decreases |stmts|
  {
    hide LoadStatement;
    if stmts != [] {
      var step := LoadStatement(disk, loaded, loading, file, env, exports, stmts[0]);
      if step.Ok? {
        LoadStatementsIs(disk, step.value.0, loading, file, step.value.1, step.value.2, stmts[1..]);
      }
    }
  }

  lemma {:induction false} FileScopeAppend(disk: Disk, loaded: Loaded, loading: set<string>, file: string, env: Env,
                                           exports: Env, xs: seq<Statement>, ys: seq<Statement>)
    ensures var first := FileScope(disk, loaded, loading, file, env, exports, xs);
      FileScope(disk, loaded, loading, file, env, exports, xs + ys)
      == if first.Err? then first
         else FileScope(disk, first.value.0, loading, file, first.value.1, first.value.2, ys)
    decreases |xs|
  {
    hide LoadStatement;
    if xs == [] {
      assert xs + ys == ys;
    } else {
      assert (xs + ys)[0] == xs[0] && (xs + ys)[1..] == xs[1..] + ys;
      var step := LoadStatement(disk, loaded, loading, file, env, exports, xs[0]);
      if step.Ok? {
        FileScopeAppend(disk, step.value.0, loading, file, step.value.1, step.value.2, xs[1..], ys);
      }
    }
  }

  /** The name that a statement exports. */
  function ExportedName(stmt: Statement): Option<string> {
    match stmt
    case Return(_) => None
    case Import(exported, _, name) => if exported then Some(name) else None
    case Assign(exported, _, name) => if exported then Some(name) else None
    case Def(exported, f) => if exported then Some(f.name) else None
  }

  /** A statement of a file binds its name for the statements after it, and exactly the names that are
      exported are seen by importers, with the same meaning. */
  lemma FileStatementBinds(disk: Disk, loaded: Loaded, loading: set<string>, file: string, env: Env, exports: Env,
                           stmt: Statement)
    requires LoadStatement(disk, loaded, loading, file, env, exports, stmt).Ok?
    ensures var (after, next, exported) := LoadStatement(disk, loaded, loading, file, env, exports, stmt).value;
      && !stmt.Return?
      && (stmt.Assign? ==> after == loaded && EvalExpression(env, stmt.value).Ok?
                           && Binds(env, next, stmt.name, LabelV(EvalExpression(env, stmt.value).value)))
      && (stmt.Import? ==> disk.target(file, stmt.path) in after
                           && Binds(env, next, stmt.name, ModuleV(after[disk.target(file, stmt.path)])))
      && (stmt.Def? ==> Binds(env, next, stmt.function_.name, Closure(disk, after, file, env, stmt.function_)))
      && (ExportedName(stmt).None? ==> exported == exports)
      && (ExportedName(stmt).Some? ==>
            && ExportedName(stmt).value in next
            && Binds(exports, exported, ExportedName(stmt).value, next[ExportedName(stmt).value]))
  {
    hide EvalExpression, Closure, EvalPath, LoadImports, Load;
    match stmt
    case Return(_) =>
    case Assign(_, e, name) => BindsBoth(env, exports, name, LabelV(EvalExpression(env, e).value));
    case Import(_, path, name) =>
      var after := Load(disk, loaded, loading, disk.target(file, path)).value;
      BindsBoth(env, exports, name, ModuleV(after[disk.target(file, path)]));
    case Def(_, f) =>
      var after := LoadImports(disk, loaded, loading, file, f.body).value;
      BindsBoth(env, exports, f.name, Closure(disk, after, file, env, f));
  }

  lemma BindsBoth(env: Env, exports: Env, name: string, m: Meaning)
    ensures Binds(env, env[name := m], name, m) && Binds(exports, exports[name := m], name, m)
  {
    InsertBinds(env, name, m);
    InsertBinds(exports, name, m);
  }

  lemma {:induction false} ExportStays(disk: Disk, loaded: Loaded, loading: set<string>, file: string, env: Env,
                                       exports: Env, stmts: seq<Statement>, name: string)
    requires forall i :: 0 <= i < |stmts| ==> ExportedName(stmts[i]) != Some(name)
    requires FileScope(disk, loaded, loading, file, env, exports, stmts).Ok?
    ensures EvalPath(FileScope(disk, loaded, loading, file, env, exports, stmts).value.2, ItemPath(name, []))
         == EvalPath(exports, ItemPath(name, []))
    decreases |stmts|
  {
    hide LoadStatement;
    if stmts != [] {
      var (after, next, exported) := LoadStatement(disk, loaded, loading, file, env, exports, stmts[0]).value;
      FileStatementBinds(disk, loaded, loading, file, env, exports, stmts[0]);
      ExportStays(disk, after, loading, file, next, exported, stmts[1..], name);
      assert EvalPath(exported, ItemPath(name, [])) == EvalPath(exports, ItemPath(name, []));
    }
  }

  lemma LoadIs(disk: Disk, file: string)
    requires file in disk.files && Load(disk, map[], {}, file).Ok?
    ensures var s := FileScope(disk, map[], {file}, file, PreludeEnv(), map[], disk.files[file]);
      s.Ok? && file in Load(disk, map[], {}, file).value && Load(disk, map[], {}, file).value[file] == s.value.2
  {
    hide LoadStatements;
    assert {} + {file} == {file};
    LoadStatementsIs(disk, map[], {file}, file, PreludeEnv(), map[], disk.files[file]);
  }

  /** A program whose last statement that exports the entry point's name binds it to an expression
      denotes what this expression does in the scope that the statements before it leave. */
  lemma ProgramIs(disk: Disk, file: string, before: seq<Statement>, e: Expression, entry: string,
                  after: seq<Statement>)
    requires file in disk.files && disk.files[file] == before + [Assign(true, e, entry)] + after
    requires forall i :: 0 <= i < |after| ==> ExportedName(after[i]) != Some(entry)
    requires Load(disk, map[], {}, file).Ok?
    ensures var s := FileScope(disk, map[], {file}, file, PreludeEnv(), map[], before);
      s.Ok? && Program(disk, file, entry) == EvalExpression(s.value.1, e)
  {
    hide LoadStatement, Load, EvalExpression;
    var stmt := Assign(true, e, entry);
    LoadIs(disk, file);
    FileScopeAppend(disk, map[], {file}, file, PreludeEnv(), map[], before, [stmt] + after);
    assert before + [stmt] + after == before + ([stmt] + after);
    var (loaded, env, exports) := FileScope(disk, map[], {file}, file, PreludeEnv(), map[], before).value;
    assert ([stmt] + after)[0] == stmt && ([stmt] + after)[1..] == after;
    var (again, next, exported) := LoadStatement(disk, loaded, {file}, file, env, exports, stmt).value;
    FileStatementBinds(disk, loaded, {file}, file, env, exports, stmt);
    ExportStays(disk, again, {file}, file, next, exported, after, entry);
    assert EvalPath(exported, ItemPath(entry, [])) == Follow(next[entry], []);
    assert EvalPath(next, ItemPath(entry, [])) == Follow(LabelV(EvalExpression(env, e).value), []);
  }

  /** Nothing else is a program: without an export of the entry point's name there is no meaning. */
  lemma NoEntry(disk: Disk, file: string, entry: string)
    requires file in disk.files
    requires forall i :: 0 <= i < |disk.files[file]| ==> ExportedName(disk.files[file][i]) != Some(entry)
    requires Load(disk, map[], {}, file).Ok?
    ensures Program(disk, file, entry) == Err(Ir.Undefined)
  {
    hide LoadStatement, Load;
    LoadIs(disk, file);
    ExportStays(disk, map[], {file}, file, PreludeEnv(), map[], disk.files[file], entry);
  }
}
