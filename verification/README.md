# Serpentine, verified

Serpentine reads pipelines written in a small language (snek), compiles them to a graph in which equal
nodes are shared, and runs that graph concurrently with a content-addressed cache. This project models
that path, from source text to cached runs, in Dafny, together with four protocols beside it: network
topologies, the upload of cache blobs, file streams, and the export and import of snapshots.

How the parts fit together:

- `snek/` goes from text to graph. `Tokenizer` and `Parser` read source text; `Lexicon` and `Grammar` say
  which texts have which tokens and statements, without reference to how they are read, comments, escapes and
  every way of writing phantom inputs included; `ParserErrors` says where a text is refused; `FrontEnd` writes
  programs and reads them back. `Source` says what a program denotes (closures, modules, rebinding, defaults)
  as a fully inlined term; `Resolver*` turns source into an intermediate form over global symbols, and
  `Scoping` says by names alone which programs resolve; `Ir` gives that form a meaning in which every call has
  an activation whose bindings vanish on return; `Compiler` inlines every call with one global symbol map that
  is never popped and shares equal nodes; `Graph` says what a graph node means; `CallLaws` and `SourceLaws`
  have the laws of calls, statements and programs. `Pipeline` joins them: the compiled graph unfolds to
  exactly what the source denotes.
- `engine/` runs graphs. `Data` says what each node does, and `NodeLaws` and `Configs` what that means;
  `Scheduler*` is a state machine over cells and tasks with fail-fast aborts and restarts; `TypeSoundness` and
  `WholeProgram` tie runs to source programs; `Postcard`, `CacheKey`, `Cache` and `CachedEngine` show that keys
  are injective and that caching cannot be observed; `WithSnapshots` shows where copying files into a
  container goes wrong; `BlobWriter` uploads cache entries; `Formats` pins bytes that other programs read.
- `network/` has topologies as canonical forms of unordered trees, and the networks realised for them.
- `stream/` and `layers/` have the file stream and what importing one leaves on a disk that is not empty, the
  export of overlay layers, and snapshots that travel through the cache.

Code that updates state in the original is a class or a method with loops here, proved against functions;
the laws are lemmas about these functions.

Statements that one might expect but that are false of the code, with the exact condition under which each
holds:

- A node is not always executed once. If a sibling fails, a task that others still wait for is dropped and
  started again (`SchedulerRestart.StartedTwice`). How often is exactly counted
  (`SchedulerRuns.StartsExactly`, `SchedulerRuns.StartedOnceIff`); without failures it never happens
  (`SchedulerRuns.NoAbortWithoutFailure`). The comment at serpentine/src/engine/scheduler.rs:148 promises more.
- Copying the same files into the same container state at two destinations gives the first result twice; a
  later copy is right exactly if both destinations give the same files (`WithSnapshots.FirstDestinationWins`).
- The stream of a folder is read back exactly if no special file is in it: each one makes the reader take one
  more entry from what follows (`FileStreams.RoundTripIffPlain`, `FileStreams.SpecialsSwallow`).
- An exported layer rebuilds its overlay exactly if no file has a name with the whiteout prefix and no opaque
  directory lies over a lower file (`Layers.RebuildsIff`).
- A blob's committed list is whole exactly up to 65535 blocks (`BlobWriters.CommittedIsWhole`); the size limit
  of a repository keeps blobs far below that (`BlobWriters.BlocksOfARepository`).

No hash of fixed length is free of collisions on all byte strings. The theorems about the cache record every
byte string that was hashed and assume only that no two of these have one digest.

## Model

| member | source | states |
|---|---|---|
| `Graphs.UnfoldStable` | serpentine/src/engine/data_model.rs:246-286 | pushing nodes onto the store never changes the term that an older id unfolds to |
| `Graphs.SharingIsMaximal` | serpentine/src/snek/compiler.rs:323-337 | in a graph without duplicate nodes two ids are equal if and only if the terms they unfold to, literal values included, are equal |
| `Compilers.Compiler.PushNodeWithCache` | serpentine/src/snek/compiler.rs:323-337 | the id returned holds exactly the pushed node; the graph stays ordered and free of duplicates and the node cache stays its exact inverse |
| `Compilers.Compiler.GetSymbols` | serpentine/src/snek/compiler.rs:339-343 | the values read stand for the caller's bindings: the lookup that panics on an unbound symbol never does |
| `Compilers.Compiler.CompileBuiltin` | serpentine/src/snek/compiler.rs:183-240 | succeeds exactly when the node type-checks, and then the pushed node unfolds to the implementation applied to the argument and phantom terms |
| `Compilers.Compiler.CreatePhantomNoop` | serpentine/src/snek/compiler.rs:302-320 | a custom call with phantom inputs denotes a Noop over the body's term that waits for the phantoms |
| `Compilers.Compiler.HandleCustomArguments` | serpentine/src/snek/compiler.rs:243-299 | the global symbol map agrees with the bindings that entering the function gives: arguments first, then missing defaults left to right; the arity errors are the same |
| `Compilers.Compiler.BindRequiredParameters` | serpentine/src/snek/compiler.rs:243-270 | overwriting parameters one by one in the global map binds them all |
| `Compilers.Compiler.BindDefaultParameters` | serpentine/src/snek/compiler.rs:270-299 | given defaults are bound and missing ones compiled in order, each seeing the parameters before it |
| `Compilers.Compiler.SetDefault` | serpentine/src/snek/compiler.rs:270-299 | compiling a default's body and copying its value gives the parameter what the reference semantics gives it |
| `Compilers.Compiler.CompileCustom` | serpentine/src/snek/compiler.rs:107-180 | inlining a call into the global, never popped map yields a node for the value of a call whose bindings are discarded, and the caller's own bindings still agree afterwards |
| `Compilers.Compiler.CompileBody` | serpentine/src/snek/compiler.rs:107-180 | compiling the nodes of a body in order follows running the body in an activation |
| `Compilers.Compiler.CompileNode` | serpentine/src/snek/compiler.rs:107-180 | compiling one node follows running it: same binding, same type error |
| `Compilers.Compiler.CompileCall` | serpentine/src/snek/compiler.rs:107-180 | a call of either kind of function yields a node for its value or its type error |
| `Compilers.UnfoldsTo` | serpentine/src/snek/compiler.rs:183-240 | a node pushed over ids that stand for terms unfolds to the implementation applied to these terms |
| `Compilers.Compile` | serpentine/src/snek/compiler.rs:64-103 | for every well-formed program the start node unfolds to the meaning of the activation semantics, in an ordered graph with maximal sharing; otherwise the error is that meaning's type error |
| `Ir.EnteringIsSafe` | serpentine/src/snek/compiler.rs:243-299 | a callee's transitive writes are disjoint from every symbol that a caller may still read |
| `Ir.ExecExtends` | serpentine/src/snek/compiler.rs:107-180 | running a body only adds or changes bindings of the names it defines |
| `Ir.ExecAppend` | serpentine/src/snek/compiler.rs:64-103 | running a body in two parts is running the second part where the first ended |
| `DataModel.CheckArguments` | serpentine/src/engine/nodes.rs:366-408 | succeeds if and only if every argument is accepted, and otherwise reports the expected and the given type of the first one that is not |
| `DataModel.CheckStrings` | serpentine/src/engine/nodes.rs:742-754 | succeeds if and only if all arguments of a Join are strings, and otherwise reports the first one that is not |
| `CallLaws.CustomCallWaits` | serpentine/src/snek/compiler.rs:153-157 | a custom call with phantom inputs is a Noop over what the call without them denotes, with its type, that waits for all of them in order; without phantom inputs it is that itself |
| `CallLaws.ClosureWaits` | serpentine/src/snek/compiler.rs:153-157 | the same for the closures of the source |
| `CallLaws.BuiltinCallKeeps` | serpentine/src/snek/compiler.rs:183-240 | a well-typed builtin call denotes its implementation over the arguments in order, waiting for the phantom inputs, with the type checked |
| `CallLaws.TypeErrorsAreExact` | serpentine/src/engine/nodes.rs:366-408 | a node type-checks if and only if the number of arguments is right and each fits; a wrong number is reported with what was expected and given, whatever the types are |
| `CallLaws.WrongCount` | serpentine/src/snek/compiler.rs:243-299 | a custom call has a wrong number of arguments if and only if there are fewer than the required ones or more than all, and the error gives the least or greatest number and the given one |
| `CallLaws.WrongCountInSource` | serpentine/src/snek/compiler.rs:243-299 | the same for the closures of the source |
| `CallLaws.ParameterStandsFor` | serpentine/src/snek/compiler.rs:243-270 | inside a function a parameter stands for the argument in its place, the last one if names repeat, and other names stand for what they did |
| `CallLaws.DefaultIsArgument` | serpentine/src/snek/compiler.rs:270-299 | leaving out an argument is the same as passing the value of its default, evaluated after the parameters before it |
| `CallLaws.ChainIsCall` | book/src/snek.md:61-66 | `A > B(1)` denotes what `B(A, 1)` does, errors included |
| `CallLaws.ChainGoesOn` | serpentine/src/snek/resolver.rs:640-658 | one more node at the end of a chain takes the value of the chain so far as its first argument |
| `CallLaws.ArgumentsAreValues` | serpentine/src/snek/resolver.rs:661-715 | the values of a list of arguments are those of its expressions, in order |
| `Pipeline.ResolutionPreservesMeaning` | serpentine/src/snek/resolver.rs:316-354 | the resolved program denotes exactly what the source denotes under closures, exports, rebinding, defaults and chaining, type errors included, and never reads an unbound symbol |
| `Pipeline.ResolvedIsCompilable` | serpentine/src/snek/resolver.rs:316-354 | the resolver's output has the structure that compiling needs, in functions that are never called too: all symbols bound by parameters, defaults, bodies and the top level are pairwise different; every call, in a body or a default, goes to an earlier function; every argument, phantom, default value and result is bound before its use in the same body, as a parameter, by the body around the definition, or at the top level |
| `Structure.CompilableIsDefined` | serpentine/src/snek/compiler.rs:339-343 | with that structure no symbol is read before it is bound and no function is called that does not exist, at any depth of calls |
| `Structure.CompilableIsWellFormed` | serpentine/src/snek/compiler.rs:107-180 | with that structure nothing that a callee binds, at any depth, can still be read by its caller: what the compiler takes for granted |
| `Pipeline.ResolvedIsWellFormed` | serpentine/src/snek/resolver.rs:316-354 | the resolver's output meets what the compiler takes for granted, and its node implementations are pairwise different |
| `Pipeline.CompileProgram` | serpentine/src/snek/compiler.rs:64-103 | from source files to a graph whose start node unfolds to the term the source denotes, or to the resolver's error or the source's type error |
| `ResolverMeaning.ExpressionMeaning` | serpentine/src/snek/resolver.rs:609-715 | the nodes emitted for an expression compute what the expression denotes |
| `ResolverMeaning.ChainMeaning` | book/src/snek.md:61-66 | `A > B(1) > C(2)` denotes `C(B(A, 1), 2)` |
| `ResolverMeaning.LiteralMeaning` | serpentine/src/snek/resolver.rs:718-744 | a literal, new or seen before, stands for itself wherever it is used |
| `ResolverMeaning.FollowMeaning` | serpentine/src/snek/resolver.rs:747-763 | following a path through module exports finds the item that stands for the source's meaning |
| `ResolverMeaning.EmitMeaning` | serpentine/src/snek/resolver.rs:661-715 | an emitted node has the value of the call it stands for |
| `ResolverFunctions.DefaultsMeaning` | serpentine/src/snek/resolver.rs:547-567 | defaults are bound left to right, each seeing the parameters before it |
| `ResolverFunctions.DefinitionMeaning` | serpentine/src/snek/resolver.rs:534-600 | a resolved definition stands for the closure over the scope at its definition |
| `ResolverFunctions.CallMeaning` | serpentine/src/snek/resolver.rs:534-600 | calling a resolved function from any activation that still holds what it captured gives the closure's value |
| `ResolverFunctions.BodyMeaning` | serpentine/src/snek/resolver.rs:465-606 | the statements of a function body, nested definitions, imports and rebinding included, run in step with the source |
| `ResolverModules.ModuleMeaning` | serpentine/src/snek/resolver.rs:387-462 | getting a module, cached or not, keeps all modules in step with what the source loads |
| `ResolverModules.ModuleStatements` | serpentine/src/snek/resolver.rs:415-462 | the statements of a file run in step with the source, and its exports stand for the source's exports |
| `ResolverModules.PreludePosition` | serpentine/src/engine/nodes.rs:821-918 | the names of the prelude are pairwise different and so are its implementations |
| `ResolverModules.PreludeStands` | serpentine/src/snek/resolver.rs:365-381 | every prelude name stands for its node |
| `ResolverSites.ModuleSites` | serpentine/src/snek/resolver.rs:387-462 | resolving a file binds only fresh symbols, each of them once, counted with multiplicity over functions, defaults and the top level |
| `ResolverSites.FunctionSites` | serpentine/src/snek/resolver.rs:534-600 | the same for a function with its parameters, defaults and nested definitions |
| `ResolverSites.ExpressionSites` | serpentine/src/snek/resolver.rs:609-715 | the same for an expression: what the target gains is fresh and bound once |
| `ResolverScopes.ModuleScopes` | serpentine/src/snek/resolver.rs:387-462 | after a file has been resolved every function and the top level only use what is defined before, every exported item can be used from anywhere below, and new functions are placed at the top level or in the body of a later function |
| `ResolverScopes.FunctionScopes` | serpentine/src/snek/resolver.rs:534-600 | a resolved function calls only functions with smaller ids, and reads only its own symbols and those that could be seen where it was defined |
| `ResolverScopes.ExpressionScopes` | serpentine/src/snek/resolver.rs:609-715 | everything an expression reads or calls is in view where it is emitted, and so is its value afterwards |
| `ResolverScopes.StatementScopes` | serpentine/src/snek/resolver.rs:465-606 | the same for each kind of statement, with the scope and the exports that it leaves |
| `ResolverRanges.ModuleInRange` | serpentine/src/snek/resolver.rs:387-462 | every symbol, function and module that scopes, exports and caches hold exists, and no implementation is stored twice |
| `ResolverImports.EachFileOnce` | serpentine/src/snek/resolver.rs:387-412 | resolved files and modules correspond one to one, and each file comes after every file it imports |
| `ResolverImports.CyclesAreErrors` | serpentine/src/snek/resolver.rs:387-412 | a program from which a file that imports itself can be reached, directly or through others, does not resolve |
| `Resolvers.ResolveLiteral` | serpentine/src/snek/resolver.rs:718-744 | a literal keeps its symbol for good and adds at most one node to the top level |
| `Resolvers.GetModule` | serpentine/src/snek/resolver.rs:387-412 | on success the file is cached under the module returned, and stores have only grown |
| `ResolverErrors.ResolvesIffWellScoped` | serpentine/src/snek/resolver.rs:316-606 | a program resolves if and only if it is well scoped by the rules of names alone, and otherwise both give the same error |
| `ResolverErrors.StatementFits` | serpentine/src/snek/resolver.rs:465-606 | a statement resolves if and only if the rules of names accept it, and leaves scope, exports and loaded files as they say |
| `ResolverErrors.FunctionFits` | serpentine/src/snek/resolver.rs:534-600 | the same for a definition with its parameters, defaults and body |
| `ResolverErrors.ExpressionFits` | serpentine/src/snek/resolver.rs:609-715 | the same for an expression |
| `ResolverErrors.GetModuleFits` | serpentine/src/snek/resolver.rs:387-462 | the same for a file, loaded before or not, with the files it imports; one that is being loaded is an error |
| `ResolverMethods.Resolver.constructor` | serpentine/src/snek/resolver.rs:365-381 | a new resolver holds the prelude in registration order |
| `ResolverMethods.Resolver.ResolveLiteral` | serpentine/src/snek/resolver.rs:718-744 | updates the resolver's fields as the specification says |
| `ResolverMethods.Resolver.ResolveExpression` | serpentine/src/snek/resolver.rs:609-658 | result, new state and emitted nodes are those of the specification |
| `ResolverMethods.Resolver.ResolveNode` | serpentine/src/snek/resolver.rs:661-715 | the function, the phantom inputs and the arguments are resolved in this order and one node is emitted |
| `ResolverMethods.Resolver.ResolveDefaults` | serpentine/src/snek/resolver.rs:547-567 | the loop over defaults gives what the recursive specification gives |
| `ResolverMethods.Resolver.ResolveStatement` | serpentine/src/snek/resolver.rs:465-606 | result, new state, scope and target are those of the specification for each kind of statement |
| `ResolverMethods.Resolver.ResolveFunction` | serpentine/src/snek/resolver.rs:534-600 | the function's id and the state after it are those of the specification |
| `ResolverMethods.Resolver.GetModule` | serpentine/src/snek/resolver.rs:387-462 | the cache is consulted, marked and filled as in the specification, a file being resolved is an error |
| `ResolverMethods.Resolve` | serpentine/src/snek/resolver.rs:316-354 | the whole resolution equals the specification |
| `Source.Load` | serpentine/src/snek/resolver.rs:387-462 | loading never forgets a loaded file and loads the one asked for |
| `SourceLaws.ProgramIs` | serpentine/src/snek/resolver.rs:316-462 | a program whose last statement that exports the entry point's name binds it to an expression denotes what that expression does in the scope that the statements before it leave, whatever comes after |
| `SourceLaws.NoEntry` | serpentine/src/snek/resolver.rs:316-354 | a file that never exports the entry point's name is no program |
| `SourceLaws.BodyIff` | serpentine/src/snek/resolver.rs:534-600 | a function body has a value if and only if all its statements can be run and exactly one returns; it is the value of that expression in the scope before it |
| `SourceLaws.FileStatementBinds` | serpentine/src/snek/resolver.rs:465-606 | a statement of a file binds its name for what follows, and importers see exactly the exported names, with the same meaning |
| `SourceLaws.StatementBinds` | serpentine/src/snek/resolver.rs:465-606 | a statement of a function body binds its name and exports nothing |
| `SourceLaws.LabelStandsFor` | serpentine/src/snek/resolver.rs:507-524 | a label can be replaced by the expression that it was bound to, and nothing is behind it |
| `SourceLaws.ImportStandsFor` | serpentine/src/snek/resolver.rs:474-500 | behind the name of an import there is exactly what the file exports |
| `SourceLaws.DefinitionStandsFor` | serpentine/src/snek/resolver.rs:525-600 | a call of a defined function runs its body over the scope before the definition, in which the function is not defined yet |
| `Lexicon.LexesIff` | serpentine/src/snek/tokenizer.rs:116-200 | for every text: reading gives a token, an end or an error exactly if the text is white space and comments followed by a spelling of that token that ends there, by nothing, or by what is wrong |
| `Lexicon.TokensIff` | serpentine/src/snek/tokenizer.rs:96-114 | a text has given tokens if and only if it is written as spellings of them in order, with white space and comments around each |
| `Lexicon.ErrorsIff` | serpentine/src/snek/tokenizer.rs:96-200 | a text fails with an error if and only if it is written as some tokens followed by what that error stands for |
| `Lexicon.CommentsAreSkipped` | serpentine/src/snek/tokenizer.rs:138-168 | a line comment up to its newline and a block comment up to the first `*/` can be left out, at the start and after any token |
| `Lexicon.GapsDoNotMatter` | serpentine/src/snek/tokenizer.rs:116-168 | any number of spaces, line and block comments can be left out |
| `Lexicon.ReadSpelled` | serpentine/src/snek/tokenizer.rs:116-200 | each spelling of a token, followed by what cannot continue it, is read as that token |
| `Lexicon.EscapedIsContent` | serpentine/src/snek/tokenizer.rs:203-245 | a string with its quotes and backslashes escaped has its own content, whatever it contains |
| `Lexicon.ReadAllShown` | serpentine/src/snek/tokenizer.rs:96-114 | tokens written out with a space after each are read back, followed by the end token |
| `Lexicon.ReadShown` | serpentine/src/snek/tokenizer.rs:116-200 | a keyword, symbol, identifier, number or string followed by a space is read back as itself |
| `Tokenizers.Tokenizer.HandleString` | serpentine/src/snek/tokenizer.rs:203-245 | the loop with its escape state reads the content that the specification gives, or finds no closing quote |
| `Tokenizers.Tokenizer.AdvanceWhile` | serpentine/src/snek/tokenizer.rs:248-258 | consumes exactly the longest prefix that satisfies the predicate and counts it |
| `Tokenizers.Tokenizer.HandleComment` | serpentine/src/snek/tokenizer.rs:150-168 | leaves what follows the first `*/`, or nothing |
| `Tokenizers.Tokenizer.ReadNextToken` | serpentine/src/snek/tokenizer.rs:116-200 | the token, the error and the position afterwards are those of the function that `Lexicon.LexesIff` characterises |
| `Tokenizers.Tokenize` | serpentine/src/snek/tokenizer.rs:96-114 | the tokens or the error of the whole text are those that `Lexicon.TokensIff` and `Lexicon.ErrorsIff` characterise |
| `FrontEnd.SourceRoundTrip` | serpentine/src/snek/parser.rs:19-427 | every well-formed file with valid identifiers, written as text, is tokenized and parsed back to itself |
| `FrontEnd.ShowIsInjective` | serpentine/src/snek/parser.rs:19-427 | well-formed files with the same text are the same file |
| `FrontEnd.NoInternalError` | serpentine/src/snek/parser.rs:408-427 | no text makes the parser run past the end token |
| `FrontEnd.ReadSourceIff` | serpentine/src/snek/parser.rs:19-427 | a text is read as given statements if and only if it spells tokens that the grammar derives from them |
| `Grammar.FileIff` | serpentine/src/snek/parser.rs:19-36 | for all tokens and statements: a file parses to these statements if and only if the grammar derives the tokens from them, with phantom inputs in any of their forms |
| `Grammar.ReadPhantoms` | serpentine/src/snek/parser.rs:266-290 | nothing, `!path` without parentheses and `!(path, ...)` are read as no, one and these phantom inputs, and what follows is left |
| `Grammar.ExpressionIs` | serpentine/src/snek/parser.rs:174-243 | whatever is parsed as an expression was a form of it in the grammar |
| `Grammar.StatementIs` | serpentine/src/snek/parser.rs:42-171 | whatever is parsed as a statement was a form of it in the grammar |
| `Grammar.SplitFailsAt` | serpentine/src/snek/parser.rs:122-143 | dividing parameters fails if and only if a required one comes after a default, and the error names the first such one |
| `ParserErrors.FileRefused` | serpentine/src/snek/parser.rs:19-427 | a refused token is the one at some position, and every continuation of the tokens up to it is refused with the same error |
| `ParserErrors.StatementSteps` | serpentine/src/snek/parser.rs:42-427 | one more token either leaves what the parser of a statement answered, or is the first that gives an answer: then at most that token is left over, and if one is refused it is that one |
| `Grammar.ReadExpression` | serpentine/src/snek/parser.rs:174-243 | every form of an expression, followed by anything that ends it, parses to that expression and leaves the rest |
| `Grammar.ReadNode` | serpentine/src/snek/parser.rs:246-307 | every form of a node, its phantom inputs with or without parentheses, parses to that node and leaves the rest |
| `Grammar.ReadStatement` | serpentine/src/snek/parser.rs:42-171 | every form of a statement parses to that statement and leaves the rest |
| `Grammar.SplitBoth` | serpentine/src/snek/parser.rs:126-143 | required parameters followed by defaulted ones are told apart again |
| `Parsers.ParseExpression` | serpentine/src/snek/parser.rs:174-243 | on tokens that end with the end token, parsing never consumes it and never fails with the internal error |
| `Parsers.ParseStatements` | serpentine/src/snek/parser.rs:314-334 | the same for a list of statements up to the closing bracket |
| `Parsers.ParseFile` | serpentine/src/snek/parser.rs:19-36 | the same for a whole file |
| `ParserMethods.Parser.ParseItemPath` | serpentine/src/snek/parser.rs:339-350 | the loop over `::` parts gives the path of the specification and leaves the same tokens |
| `ParserMethods.Parser.ParsePathList` | serpentine/src/snek/parser.rs:314-334 | the loop over a parenthesised list of paths gives the list of the specification |
| `ParserMethods.Parser.ParseExpressionTokens` | serpentine/src/snek/parser.rs:174-191 | expression, error and tokens left are those of the specification |
| `ParserMethods.Parser.ParseAtomTokens` | serpentine/src/snek/parser.rs:194-219 | literal, label or node: result and tokens left are those of the specification |
| `ParserMethods.Parser.ParseChainTokens` | serpentine/src/snek/parser.rs:225-238 | the loop over `>` gives the nodes of the specification |
| `ParserMethods.Parser.ParseNodeTokens` | serpentine/src/snek/parser.rs:246-307 | phantom inputs, name and arguments are those of the function that `Grammar.ReadNode` and its converse characterise |
| `ParserMethods.Parser.ParseArgumentList` | serpentine/src/snek/parser.rs:314-334 | the loop over arguments gives the list of the specification |
| `ParserMethods.Parser.ParseFunctionDef` | serpentine/src/snek/parser.rs:107-154 | name, parameters and body are those of the specification |
| `ParserMethods.Parser.ParseStatementTokens` | serpentine/src/snek/parser.rs:42-79 | statement, error and tokens left are those of the specification |
| `ParserMethods.Parser.ParseStatementList` | serpentine/src/snek/parser.rs:314-334 | the loop over statements gives the list of the specification |
| `ParserMethods.Divide` | serpentine/src/snek/parser.rs:122-143 | the loop divides parameters as specified and fails at the first required one after a default |
| `ParserMethods.ParseTokens` | serpentine/src/snek/parser.rs:19-36 | the whole file is parsed as specified |
| `ParserMethods.ParseSource` | serpentine/src/snek/parser.rs:19-36 | from text to statements as specified |
| `SchedulerRuns.EveryScheduleAgrees` | serpentine/src/engine/scheduler.rs:123-195 | in every interleaving, aborts and restarts included, a run that can go no further holds the recursive evaluation of the start node, and fails exactly if there is none, with an error that the program has |
| `SchedulerRuns.OneTaskPerNode` | serpentine/src/engine/scheduler.rs:153-179 | at no point of any run are two live tasks at work for one node |
| `SchedulerRuns.RunInv` | serpentine/src/engine/scheduler.rs:123-195 | every run keeps the invariant, and finished cells never change |
| `SchedulerRuns.WorkStartsLast` | serpentine/src/engine/scheduler.rs:182-195 | a node's own work starts only when it is needed by the start node and all its phantom inputs and inputs have succeeded |
| `SchedulerRuns.NotStuck` | serpentine/src/engine/scheduler.rs:153-195 | until the start node is settled some step is always possible |
| `SchedulerRuns.StepRank` | serpentine/src/engine/scheduler.rs:153-195 | every step decreases a rank, although aborts empty cells again |
| `SchedulerRuns.RunsEnd` | serpentine/src/engine/scheduler.rs:153-195 | every run of a graph with n nodes has at most n(4n+1)+4n steps |
| `SchedulerRuns.StartsExactly` | serpentine/src/engine/scheduler.rs:153-179 | in every run a node is started exactly once for each time that a fail-fast consumer above it drops its task, and once more if its cell is not left empty; it is finished exactly once if its cell is done at the end and never otherwise |
| `SchedulerRuns.StartedOnceIff` | serpentine/src/engine/scheduler.rs:148-179 | a node is started at most once if and only if its task is never dropped, or dropped once and not started again |
| `SchedulerRuns.CellStep` | serpentine/src/engine/scheduler.rs:123-195 | a step starts a node, drops its task or finishes it exactly if it moves the node's cell out of empty, back to empty, or to done |
| `SchedulerRuns.NoAbortWithoutFailure` | serpentine/src/engine/scheduler.rs:123-133 | if every needed node has a value, no step of any run drops a task |
| `SchedulerRestart.StartedTwice` | serpentine/src/engine/scheduler.rs:153-179 | whenever pulling the image "a" fails, a run of fifteen steps of `All(Env(Image("a"), "k", "k"), "k")` starts the literal "k" twice |
| `SchedulerSafety.StepInv` | serpentine/src/engine/scheduler.rs:123-195 | each step, an abort of whole task trees included, keeps every part of the invariant |
| `SchedulerSafety.WorkingSees` | serpentine/src/engine/scheduler.rs:182-195 | a task at its own work sees exactly the values of its inputs |
| `SchedulerSafety.LegitFails` | serpentine/src/engine/nodes.rs:545-580 | an error that a node may report is an error of a node without a value; an All node's list has exactly one error for each failing input, in input order |
| `SchedulerSafety.CollectSettled` | serpentine/src/engine/nodes.rs:545-580 | what an All node collects is that list |
| `TypeSoundness.InvokeSound` | serpentine/src/engine/nodes.rs:596-818 | each wrapped function returns the type of its signature, and the six whose static type passes through return the variant of container or service that they were given |
| `TypeSoundness.ExecuteSound` | serpentine/src/engine/nodes.rs:348-440 | on inputs of the checked types a node never fails internally and yields a value of its return type |
| `NodeLaws.JoinAppends` | serpentine/src/engine/nodes.rs:756-777 | joining two lists of strings one after the other appends what each joins to |
| `NodeLaws.JoinOne` | serpentine/src/engine/nodes.rs:756-777 | joining one string gives that string, and joining nothing the empty one |
| `NodeLaws.JoinedIsString` | serpentine/src/engine/nodes.rs:756-777 | joining succeeds if and only if all inputs are strings |
| `NodeLaws.WaitedValue` | serpentine/src/snek/compiler.rs:302-320 | at runtime a Noop over a term has a value if and only if the term and everything it waits for have one, and it is the term's |
| `NodeLaws.PassedOn` | serpentine/src/engine/nodes.rs:450-593 | All and Noop give their first input, and literals themselves |
| `NodeLaws.ContainersAreRebuilt` | serpentine/src/engine/nodes.rs:612-688 | running a command or copying files gives the container, or the container of the service, that the engine answers, and keeps the rest of a service |
| `NodeLaws.AnswersAreReturned` | serpentine/src/engine/nodes.rs:596-672 | images, output, exported files and host files are what the engine and the host answer for that very container and text, failures included |
| `NodeLaws.DirectoriesJoin` | serpentine/src/engine/nodes.rs:691-697 | a working directory is joined with the one before, and nothing else changes |
| `NodeLaws.UserIsSet` | serpentine/src/engine/nodes.rs:722-729 | setting the user sets it and changes nothing else |
| `NodeLaws.ServiceIsAttached` | serpentine/src/engine/nodes.rs:790-802 | an attached service is found under its name, other names find what they did, and the names stay sorted |
| `NodeLaws.HealthcheckIsSet` | serpentine/src/engine/nodes.rs:781-818 | a container becomes a service with its entry point and no health check, and a health check is its command with its time |
| `Configs.SetVariableIsRead` | serpentine/src/engine/nodes.rs:700-719 | a variable set by Env is what GetEnv reads, other variables read as before, one never set reads as empty, and the container or service is otherwise unchanged |
| `Configs.SetKeepsSorted` | serpentine/src/engine/containerd/container_config.rs:48-51 | setting a variable keeps the entries in key order and adds no other key |
| `TypeSoundness.EvalSound` | serpentine/src/engine/nodes.rs:184-304 | every value that a well-typed term computes has the static type of the term |
| `TypeSoundness.CallTyped` | serpentine/src/snek/compiler.rs:183-240 | every type that is recorded during inlining is the static type of the term it is recorded for |
| `TypeSoundness.ProgramTyped` | serpentine/src/snek/compiler.rs:64-103 | a program that compiles is well typed |
| `WholeProgram.RunComputesTheSource` | serpentine/src/engine/scheduler.rs:123-195 | a settled run of a compiled program has the value of the term that its source files denote |
| `WholeProgram.NoInternalErrors` | serpentine/src/engine/nodes.rs:410-435 | in every run of a compiled program no node misses arguments or meets a wrong type, and every value has the recorded static type |
| `CacheKeys.KeyBytes` | serpentine/src/engine/cache/mod.rs:92-138 | the bytes hashed for two keys are the same if and only if scope, node kind and inputs are, file systems compared by digest |
| `CacheKeys.KeysDoNotCollide` | serpentine/src/engine/cache/mod.rs:125-138 | unless two of the byte strings hashed so far have one digest, keys of any scopes have the same hash if and only if they are the same key |
| `CacheKeys.ShortStringsStayApart` | serpentine/src/engine/cache/mod.rs:125-138 | that assumption can be met: one hash of fixed length keeps any set of short strings apart |
| `CacheKeys.NodeKeyInjective` | serpentine/src/engine/cache/mod.rs:181-192 | different kinds, numbers of inputs or inputs are fed different bytes |
| `CacheKeys.WithKeyInjective` | serpentine/src/engine/containerd/files.rs:107-115 | the two kinds of key that share the scope of copies never coincide |
| `CacheKeys.InputPrefix` | serpentine/src/engine/data_model.rs:120-134 | the encoding of an input is prefix-free |
| `CacheKeys.Hasher.HashNodeKey` | serpentine/src/engine/cache/mod.rs:181-192 | the loop feeds the hasher exactly the key's content |
| `CacheKeys.FromNodeKey` | serpentine/src/engine/cache/mod.rs:125-138 | the key's hash is the hash of scope and content |
| `Formats.NodeKeys` | serpentine/src/engine/cache/mod.rs:181-192 | the bytes of an example key, number by number: kind and count in 8 bytes each, then the inputs |
| `Formats.OtherKeys` | serpentine/src/engine/cache/mod.rs:92-124 | the tags of all other keys and inputs |
| `Formats.Strings` | serpentine/src/engine/cache/mod.rs:92-110 | strings of one, two, three and four bytes a character |
| `Formats.Numbers` | serpentine/src/engine/cache/mod.rs:92-110 | numbers at the borders of the variable-length encoding, and negative ones |
| `Formats.Containers` | serpentine/src/engine/containerd/container_config.rs:12-32 | the bytes of a container with a variable, a working directory and a user, and of an empty one |
| `Formats.ServiceBytes` | serpentine/src/engine/containerd/container_config.rs:137-142 | the bytes of a service with its entry point, its health check and the time for it |
| `Postcard.ContainerPrefix` | serpentine/src/engine/containerd/container_config.rs:198-204 | the encoding of a container, nested services included, is prefix-free |
| `Postcard.ServicePrefix` | serpentine/src/engine/containerd/container_config.rs:137-142 | the encoding of a service is prefix-free |
| `Postcard.ConfigPrefix` | serpentine/src/engine/containerd/container_config.rs:12-32 | the encoding of a configuration with its sorted maps is prefix-free |
| `Postcard.StrPrefix` | serpentine/src/engine/cache/mod.rs:92-110 | the encoding of a string as its length and UTF-8 bytes is prefix-free |
| `Postcard.VarintPrefix` | serpentine/src/engine/cache/mod.rs:92-110 | the variable-length encoding of numbers is prefix-free |
| `Cache.EveryJobIsUncached` | serpentine/src/engine/nodes.rs:74-156 | over any interleaving of any programs' executions on one cache, with arbitrary health checks, refused or broken writes and exported snapshots, every finished execution has its uncached outcome, unless two byte strings hashed during that run have one digest |
| `Cache.FoundIsYielded` | serpentine/src/engine/cache/mod.rs:125-138 | a whole value found under a node's key is what executing that node yields |
| `Cache.HitsHappen` | serpentine/src/engine/nodes.rs:89-144 | a run in which a node's value is stored and its second execution is served from the cache, with nothing colliding |
| `Cache.DeadValuesAreNotUsed` | serpentine/src/engine/nodes.rs:106-113 | the counterpart: a container or service that is stored but found dead is executed again, and finished only after that |
| `Cache.LookDecides` | serpentine/src/engine/nodes.rs:99-117 | a value found is used if and only if it is a number, a string, or healthy; otherwise the node is executed, and nothing else changes |
| `Cache.WorkDecides` | serpentine/src/engine/nodes.rs:119-144 | an outcome of a cached node is kept for storing if it is a value that can be stored, and is returned at once otherwise |
| `Cache.LuckDecides` | serpentine/src/engine/cache/mod.rs:143-154 | what the environment may answer: one of the values written or nothing, and a write that arrives, breaks or is refused |
| `Cache.CachedKinds` | serpentine/src/engine/nodes.rs:821-918 | exactly the nodes that pull images and services, run commands, read their output and copy files go through the cache |
| `Cache.StepInv` | serpentine/src/engine/nodes.rs:89-144 | every step keeps: each whole value was stored for some key hashed before, and if that is a node's key the value is what executing the node yields |
| `Cache.CachedKindsAreFixed` | serpentine/src/snek/resolver.rs:365-381 | a node kind that is cached has the same id and implementation in every program; program-dependent literals are never cached |
| `Cache.Backend.ReadKey` | serpentine/src/engine/cache/mod.rs:143-147 | returns one of the values written under the key, or none, as the environment decides |
| `Cache.Backend.WriteKey` | serpentine/src/engine/cache/mod.rs:149-154 | leaves the value, something unreadable, or nothing, as the environment decides, and changes nothing else |
| `Cache.Backend.ExecuteRaw` | serpentine/src/engine/nodes.rs:74-156 | returns the uncached outcome; says that it was cached exactly if a usable value was found; is a run of the step by step protocol; keeps the cache honest, and after executing leaves the value and its snapshots there unless a write was refused |
| `CachedEngine.ResolvedIsRegistered` | serpentine/src/snek/resolver.rs:365-381 | a resolved program registers the prelude at its fixed ids and otherwise only literals |
| `CachedEngine.CachedRunComputesTheSource` | serpentine/src/engine/nodes.rs:74-156 | sessions of any programs that run one after another or at once on one cache compute what their sources denote |
| `CachedEngine.MovesOn` | serpentine/src/engine/nodes.rs:74-156 | until a session's start node is done some moves bring it closer to its end, even if the cache answers nothing and no other session moves |
| `CachedEngine.CanBeFinished` | serpentine/src/engine/nodes.rs:74-156 | from every state of every history some moves finish a given session, unless hashing collides on the way |
| `WithSnapshots.NamesAreDistinct` | serpentine/src/engine/containerd/files.rs:107-115 | copies have the same snapshot name if and only if they are of the same files into the same state, unless hashing collided |
| `WithSnapshots.FirstDestinationWins` | serpentine/src/engine/containerd/files.rs:107-177 | a later copy of the same files into the same state is right if and only if its destination gives the files that the first one did: the snapshot's name does not depend on the destination |
| `WithSnapshots.SecondDestinationIsLost` | serpentine/src/engine/containerd/files.rs:107-177 | files copied to a second destination of one state are found there if and only if it is the first destination, both joined with the working directory |
| `WithSnapshots.FirstCopyIsRight` | serpentine/src/engine/containerd/files.rs:107-177 | the first copy of some files into some state puts them at the working directory joined with the destination, or at the working directory itself for `.`, whatever is copied later |
| `WithSnapshots.SnapshotStore.CopyIntoContainer` | serpentine/src/engine/containerd/files.rs:107-177 | names the result and commits it unless the name is taken |
| `Topologies.EqualIsSameShape` | serpentine_internal/src/network.rs:137-155 | comparing gives equal if and only if the shapes are equal |
| `Topologies.CompareFlips` | serpentine_internal/src/network.rs:145-155 | the order is antisymmetric up to shape and total |
| `Topologies.CompareTransitive` | serpentine_internal/src/network.rs:145-155 | the order is transitive |
| `Topologies.OrderIsLexicographic` | serpentine_internal/src/network.rs:145-155 | one tree is less than another if and only if at the first place where their children differ it has the lesser child or none |
| `Topologies.EqualIsIsomorphic` | serpentine_internal/src/network.rs:137-155 | trees built by the constructors are equal if and only if they are the same unordered tree |
| `Topologies.CanonicalFormDecides` | serpentine_internal/src/network.rs:46-58 | any two trees are the same unordered tree if and only if rebuilding them with with_children gives one shape |
| `Topologies.WithChildrenIsCanonical` | serpentine_internal/src/network.rs:46-50 | with_children keeps trees sorted at every level |
| `Topologies.AddChildIsCanonical` | serpentine_internal/src/network.rs:53-57 | add_child keeps trees sorted at every level |
| `Topologies.SortIsStable` | serpentine_internal/src/network.rs:46-57 | sorting keeps the siblings of one shape in order |
| `Topologies.MapKeepsCanonical` | serpentine_internal/src/network.rs:72-93 | mapping data needs no new sorting |
| `Topologies.MapKeepsShape` | serpentine_internal/src/network.rs:72-93 | mapping data keeps the shape |
| `Topologies.ZipProjects` | serpentine_internal/src/network.rs:97-106 | zipping equal trees drops no node: both can be read back |
| `Topologies.VisitsAll` | serpentine_internal/src/network.rs:157-181 | iteration visits every node exactly once |
| `Topologies.VisitsAppend` | serpentine_internal/src/network.rs:157-181 | what lies higher in the stack is visited first |
| `Topologies.VisitsLast` | serpentine_internal/src/network.rs:157-181 | a node is visited before its descendants |
| `Topologies.TopologyIter.Next` | serpentine_internal/src/network.rs:172-181 | each call returns the next datum of that order and leaves the rest |
| `Subnets.DrawsTileThePrefix` | sidecar/src/main.rs:441-466 | any 65536 consecutive draws give every address of 198.18.0.0/15 exactly once |
| `Subnets.DrawsAreDisjoint` | sidecar/src/main.rs:441-466 | up to 65536 consecutive draws never repeat an address |
| `Subnets.OrIsPlus` | sidecar/src/main.rs:446-466 | a bitwise or does not carry when one number stays below the other's lowest bit |
| `Subnets.Sidecar.PickSubnet` | sidecar/src/main.rs:441-466 | the shift and the bitwise ors give the two addresses of the next draw; the 16-bit counter wraps around |
| `Subnets.Sidecar.RealizeTopology` | sidecar/src/main.rs:250-302 | returns the specified network and takes exactly 2n-1 draws for n nodes |
| `Subnets.RealizedShape` | sidecar/src/main.rs:250-302 | the network has the shape of the topology |
| `Subnets.RealizedIsWired` | sidecar/src/main.rs:250-302 | for every edge the parent's and the child's address are the two addresses of one /31 (section 2 of RFC 3021), and each node is reached at its own |
| `Subnets.EveryAddressIsUsedOnce` | sidecar/src/main.rs:250-302 | every address drawn is given to exactly one interface |
| `Subnets.AddressesAreDistinct` | sidecar/src/main.rs:250-302 | no two interfaces of one network share an address |
| `Subnets.RealizedFits` | serpentine/src/engine/containerd/exec.rs:90-127 | a pooled network fits every container tree with an equal topology, node for node |
| `Formats.Addresses` | sidecar/src/main.rs:441-466 | the first, second and last addresses of the pool in dotted form |
| `BlobWriters.BlobWriter.UploadBuffer` | serpentine/src/engine/cache/github_backend.rs:487-522 | the buffer becomes the next block; accepted bytes, counts and bounds stay accounted for |
| `BlobWriters.BlobWriter.PollJoinNext` | serpentine/src/engine/cache/github_backend.rs:544-575 | waits if and only if there are uploads and none has ended; an ended upload, of any position, leaves the set, and its block is stored unless it failed |
| `BlobWriters.BlobWriter.PollWrite` | serpentine/src/engine/cache/github_backend.rs:526-595 | waits if and only if 4 uploads are in flight and none has ended; refuses if and only if shutdown began or that upload failed; otherwise accepts exactly the prefix that fits and keeps a buffer below 32 MiB and at most 5 uploads, 4 while bytes are buffered |
| `BlobWriters.BlobWriter.PollFlush` | serpentine/src/engine/cache/github_backend.rs:605-633 | reports what draining the uploads gives, with one more if 5 MiB are buffered; success means that no upload is in flight and less than that is buffered |
| `BlobWriters.BlobWriter.PollCommit` | serpentine/src/engine/cache/github_backend.rs:635-690 | the list of blocks is committed only when all of them are stored, and moves on exactly if the service answers well |
| `BlobWriters.BlobWriter.PollShutdown` | serpentine/src/engine/cache/github_backend.rs:635-721 | if no poll ever failed, success means that the committed blob is exactly the accepted bytes, committed after all uploads and finalised after that with their number |
| `BlobWriters.CommittedIsWhole` | serpentine/src/engine/cache/github_backend.rs:472-484 | the committed list is the whole content if and only if there are at most 65535 blocks, as ids saturate |
| `BlobWriters.BlocksOfARepository` | serpentine/src/engine/cache/github_backend.rs:45-59 | 10 GiB take at most 2048 blocks |
| `BlobWriters.BlockIdsAreDistinct` | serpentine/src/engine/cache/github_backend.rs:459-470 | block ids have one length and are distinct |
| `BlobWriters.BlockIdEndsInIndex` | serpentine/src/engine/cache/github_backend.rs:459-470 | a block id is the 36 characters of a nil identifier followed by the index in 12 digits |
| `BlobWriters.DrainIs` | serpentine/src/engine/cache/github_backend.rs:544-575 | waiting for all uploads ends well if and only if each has ended well, waits only for one that runs, and fails only for one that failed |
| `FileStreams.DecodeEncode` | serpentine_internal/src/lib.rs:153-275 | decoding an encoded tree of files and folders followed by anything gives the tree and leaves exactly that |
| `FileStreams.EncodePrefix` | serpentine_internal/src/lib.rs:153-205 | the stream is self-delimiting and injective on ordered trees |
| `FileStreams.FrameInverse` | serpentine_internal/src/lib.rs:17-48 | a frame is read back and leaves what follows it |
| `FileStreams.RoundTripIffPlain` | serpentine_internal/src/lib.rs:153-275 | decoding an encoded entry followed by anything gives the entry and leaves exactly that, if and only if the entry holds no special file |
| `FileStreams.UnreadableIffSpecial` | serpentine_internal/src/lib.rs:167-200 | the stream of an entry with nothing after it cannot be read if and only if the entry holds a special file |
| `FileStreams.SpecialsSwallow` | serpentine_internal/src/lib.rs:167-275 | reading an entry's stream also takes as many of the entries that follow as it holds special files, and fails if and only if that many cannot be read |
| `FileStreams.ImportRestores` | serpentine_internal/src/lib.rs:223-275 | importing an exported tree under a fresh path rebuilds names and contents there, changes nothing else and consumes exactly the stream |
| `Merging.UnpackMerges` | serpentine_internal/src/lib.rs:223-275 | importing a tree anywhere in a disk succeeds if and only if it fits: no file where a folder is needed nor the reverse; then the tree is there, what it does not name stays, and folders above are made |
| `Merging.KeptIs` | serpentine_internal/src/lib.rs:167-205 | the filter keeps an entry if and only if it passes and so does every folder above it |
| `Formats.FileStream` | serpentine_internal/src/lib.rs:153-205 | the bytes of a folder with a file, frame by frame |
| `Formats.BrokenFrames` | serpentine_internal/src/lib.rs:17-48 | a frame that is cut off, or a header whose kind is neither file nor folder, is not read |
| `FileStreams.Exporter.Export` | serpentine_internal/src/lib.rs:153-205 | the recursive writer with its filter writes the encoding of the filtered tree |
| `FileStreams.Importer.ReadEntry` | serpentine_internal/src/lib.rs:223-275 | the recursive reader succeeds if and only if the stream decodes and its entries can be made, and leaves the specified disk and stream |
| `Layers.RebuildsIff` | sidecar/src/main.rs:622-663 | applying the exported entries (sections "Whiteouts" and "Opaque Whiteout" of the OCI image-spec layer.md) gives the overlay if and only if no file in the upper directory has the whiteout prefix and no opaque directory lies over a lower file |
| `Layers.AppliesIffFits` | sidecar/src/main.rs:622-663 | without such files, the entries can be applied if and only if no opaque directory lies over a lower file |
| `Layers.ExportAllApplies` | sidecar/src/main.rs:622-663 | the induction behind both: applied anywhere in a disk, the entries give the overlay there and change nothing else |
| `Layers.ReservedNamesGetLost` | sidecar/src/main.rs:640-650 | over any directory, a file whose name has the whiteout prefix comes out as a whiteout of the rest of its name |
| `Layers.OpaqueOverFileFails` | sidecar/src/main.rs:651-659 | an opaque directory over a lower file cannot be applied, whatever it holds |
| `Layers.TarBuilder.AppendUpperdir` | sidecar/src/main.rs:622-663 | the walk appends exactly the specified entries |
| `Snapshots.OverlayIsItsLayer` | serpentine/src/engine/containerd/layers.rs:360-469 | what an overlay shows is its exported upper directory applied to its parent |
| `Snapshots.ExportRestores` | serpentine/src/engine/containerd/layers.rs:360-469 | what a snapshot is exported as, a manifest or the entries of its upper directory, rebuilds its contents on its parent |
| `Snapshots.Client.ExportSnapshot` | serpentine/src/engine/containerd/layers.rs:360-469 | writes the exported upper directory of a snapshot after its parents; succeeds if and only if the snapshot and each ancestor is cached or stored and can be written, and then all are cached by entries that restore them |
| `Snapshots.Client.ExportSnapshotsFrom` | serpentine/src/engine/containerd/layers.rs:347-357 | the same for everything that a container refers to, services included |
| `Snapshots.Client.EnsureSnapshot` | serpentine/src/engine/containerd/layers.rs:159-194 | succeeds if and only if the snapshot is stored or can be rebuilt from the cache; one that is backed is there afterwards with all ancestors and their contents |
| `Snapshots.Client.ImportSnapshot` | serpentine/src/engine/containerd/layers.rs:475-599 | succeeds if and only if the snapshot can be rebuilt from the cache, on top of its parent, and the store stays one that can be exported again |
| `Snapshots.Client.HealthcheckValue` | serpentine/src/engine/containerd/layers.rs:143-157 | a container is healthy if and only if each snapshot that it refers to, in services too, is stored or can be rebuilt; if all are backed then everything is restored |
| `Snapshots.Transfer` | serpentine/src/engine/containerd/layers.rs:143-194 | exporting succeeds exactly if everything can be exported, and then checking on an empty store with the same cache is healthy, all contents are equal, and the new store can be exported in turn |

## Left out

- Spans, diagnostics texts, stack traces and suggestions: errors are modelled by their kind and payload.
- Input and output: reading files, containerd, the registry, HTTP requests, namespaces and mounts are parameters or nondeterministic choices. What a cache, a service or a running upload answers is a parameter of the methods that ask (`Cache.Luck`, `BlobWriters.Wake`, `BlobWriters.Answer`, the `writes` of `Snapshots`), so that their contracts say what is done with each answer. Imports name their targets through a function from file and text to a path, which stands for path joining and canonicalisation.
- What lies behind the builtin nodes (the container engine, the host's files, path joining and shell quoting) is a set of deterministic functions of the right types; nodes that only change settings are modelled in full. Nodes that read the host, and the effects of nodes that write to it, are outside the assumption of determinism.
- Aborts are immediate. In the original an aborted task ends at its next suspension point, so its own work may still be running for a moment while a restarted task begins.
- ParserErrors.FileRefused: an error carries the refused token only; the list of tokens that the original expected instead is not modelled.
- SchedulerRuns.OneTaskPerNode: counts a task as gone once it is aborted, see the line above.
- The producer span that a file system value carries for error messages, which does not affect values.
- Ids are unbounded: node, function and symbol counters are not limited to the width of their machine types. Cache keys do take kinds and counts as 64-bit numbers.
- Numbers in source are checked against the range of 128-bit integers when text is tokenized; arithmetic on them does not occur.
- Tokenizers.Tokenize: positions are characters, not bytes, so that offsets never fall inside a character; the Unicode classes of characters are a parameter that agrees with ASCII.
- ParserMethods.Parser.ParsePathList: the generic list loop of the parser appears once for each kind of item, because its item parser consumes tokens of the same object.
- blake3, base64, zstd, tar and JSON are not modelled: hashes are of fixed length and keep the strings that were hashed apart; tar entries are a path and a body.
- Values in cache entries are read back as written or not at all; the postcard decoder is modelled only for file streams.
- File metadata, permissions and links in streams and layers: only names and contents count. Names are single path components.
- Layers.RebuildsIff: leaves out directories that are not opaque and have a name with the whiteout prefix, and whiteouts of the name `.wh..opq`, whose entries remove other names as well; the lower directory has no file with the whiteout prefix, as none that layers build has (`Layers.ApplyKeepsUnreserved`).
- Subnets.Sidecar.RealizeTopology: takes topologies that are sorted at every level, as all that are built by the constructors are; failures of the network plugins, which end the call early, do not occur. Bridge names are random in the original and numbered here.
- The pool of free networks, locks, leases, retries, timeouts and the semaphore around container execution.
- `AddChild` and `WithChildren` are functions on values; the original sorts the vector of children in place.
- `eq_with_data`, which is only used to compare results up to the order of equal siblings.
- Snapshots.Client.ExportSnapshot: a write to the cache succeeds or leaves nothing behind, and cached entries stay. The upper directory that applying an imported layer leaves behind is not modelled: such a snapshot is still cached, so it is never exported again.
- Snapshot names stand for contents (`Snapshots.Honest`). The flaw shown in `WithSnapshots` violates this for copies to several destinations.
- A block that failed to upload can be forgotten if the writer is polled on after an error; contracts of the blob writer say nothing about contents once a poll has failed.
- The reporters, the command line, the standard library of the language, the local cache's files and gitignore handling.
