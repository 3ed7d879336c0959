# Verified model of gopapy

gopapy reads Python and writes it back. It has two front ends (a hand-written parser in `parser/`, called v2 here,
and an older grammar with an emitter in `legacy/parser/` and `ast/`), two layout scanners (`lex/` and
`parser/lex.go`), one printer (`ast/unparse.go`), a symbol table (`symbols/`), a linter with a result cache, a
worker pool and a fixer (`linter/`, `legacy/linter/`), and a comment table (`cst/`).

This project models those parts in Dafny and proves what they promise each other: that printed code is read back as
the tree that was printed, and exactly when it is not; that the two scanners, and the two front ends, agree; that
every schedule of the lint workers reports what a serial run without a cache reports; that the symbol table says
what the scope rules of Python say.

## How it is built

Source that works by changing state is modelled by classes and methods with the same fields and loops
(`ParserState.Parser`, `PrinterState.Printer`, `LexIndent.Indent`, `StmtScanner.Scanner`, `SymbolTable.Builder`,
`LintCache.Cache`, `LiteralCode.Cursor`, `Trivia.Table`, `DeadStores.Fixer`). Each method is proved against a
function of the old state, and the properties are lemmas about those functions:

- Expressions: `Unparse` is the printer, `Grammar` the v2 parser, `Reading` what comes back. `Descent`, `RoundTrip`
  and `FaithfulTrees` prove the round trip; `PrinterState` and `ParserState` are the code as it runs. `ExprSpellings`
  takes the text that no printer writes: commas at the end, joined strings, parentheses that could be left out.
- Statements: `UnparseStmt`, `StmtGrammar`, `StmtReading`, `DefParams`, `LedRoundTrip` (statements that a word of
  their own leads: `import`, `raise`, `del`, `assert`, `global`), `StmtRoundTrip`; `Layout` specifies logical lines,
  `OneLine` and `BlockLayout` carry the printed text through the layout layer, `ModuleRoundTrip` and `PlainText` put
  the chain together; `StmtPrinterState` and `StmtParserState` are the code as it runs. `StmtSpellings` has what is
  not printed: several statements on a line, suites on the line of their header, lists without parentheses.
- Scanners: `LexIndent`, `StmtScanner`, `LayoutAgreement`.
- Front ends: `LegacyGrammar` reads with the rules of the legacy grammar into trees of its own, `LegacyEmit` makes
  expression trees of them, once as the emitter does and once as the v2 parser does of the same parts. `Consumption`
  and `FrontEnds` prove that both grammars read the same parts, `EmitterTrees` when both make the same tree of them;
  `FrontEndAgreement` puts the two together.
- Symbols: `Scopes`, `Bindings`, `SymbolTable`, `NameMarks` (no name is lost or invented). Linter: `LintConfig`,
  `LintCache`, `LintWorkers`, `DeadStores`.
- Literals: `Bytes`, `Literals`, `LiteralReaders`, `LiteralSpellings`, `LiteralCode`. Patterns: `Patterns`,
  `PatternRoundTrip`, `PatternSpellings`, `PatternCode`. Comments: `Trivia`.

Text is a stream of tokens in which line ends, blanks, continuations and comments are tokens of their own; string
contents are bytes. `Wf`, `WfStmt` and `WfPattern` say which trees Python's own grammar can produce.

## Where the code falls short

Each of these is proved of the model, with the exact condition or with an input.

- The printer writes the body and the test of a conditional one level too shallow: `(x := y) if c else d` comes back
  as `x := (y if c else d)`, and a walrus in the test is not read at all.
- `(await a) ** b` is printed without parentheses and comes back as `await (a ** b)`. For the same text the legacy
  grammar builds the power of an await; and `await -x`, which v2 reads, the legacy grammar refuses.
- Both front ends take words of the language for names, in different places. `if := 3` is a named expression to the
  legacy grammar and the name `if` with a rest to v2; the target of `for None in` is a name to v2 and a constant to
  the legacy emitter; v2 reads `{*x: 1}` as a dictionary, which the legacy grammar refuses.
- Of the same text the legacy emitter and v2 make different trees where a comma ends a subscript of one item
  (`a[i,]`) or a yield of one value, where a starred expression stands alone in parentheses, where a second slash
  moves parameters of a lambda, and where joined strings do not begin with the kind of them all; and nowhere else,
  unless two of these cancel each other, as in `yield (*x),`.
- `a[1:2,]` is printed `a[(1:2,)]`, which the parser rejects. A comment in `ast/unparse.go` has it that the
  subscript parser drops a trailing comma; the v2 parser keeps it.
- An empty set is printed `set()` and comes back as a call.
- A target of a `for` or a comprehension whose attributes hang on a call (`f().x`) is rejected; on `None`, `True` or
  `False` it comes back with a name in place of the constant; on anything in parentheses it survives.
- A line such as `match - 1`, `match * x`, `match not in x` or `match[i]: int` is taken for a match statement;
  `match = 1`, `match.group(1)` and `type(x)` are not.
- `match` before a subject that goes on after its first bracket, as in `match (x).y:`, is not seen as a match
  statement.
- A name that a function declares global ends the lookup of a function inside it, but is marked there as captured from
  a function further out.
- An annotated name in parentheses comes back as a plain annotated name; a suite without statements is printed
  `pass`.
- Lone surrogates survive `repr` but not the printer of string literals, which writes three replacement characters
  for each. The two readers of literals differ on `\xHH` and octal escapes of `0x80` and more outside bytes, on `\u`
  and `\U` in bytes or of surrogates, and on `\N` outside bytes; on everything else they agree.
- The fast path of `scanString` leaves line and column wrong exactly when the value has a line end in it.
- A pattern whose dotted name begins with `_`, and a mapping that collects its rest as `match` or `case`, are not
  read back.
- The dead-store fix drops `x = 1` before `x = x + x`, before `x = h()` where `h` is a lambda that reads `x`, and
  before `x = g()` where `x` is global and `g` fails.
- Two paths to one file, told apart by a per-file pattern, can be given each other's cached result: with two or more
  workers, there is a schedule on which they are, unless linting both afresh gives the same.
- A comment after a token that spans lines counts as leading, because the line compared is the one the token starts
  on.

## Model

| member | source | states |
|---|---|---|
| RoundTrip.PrintThenParse | ast/unparse.go:704-906 | For every tree of Python's grammar, printing precedence, fitting ladder level and following text that cannot extend that level, the parser method of the level builds `Reparse(e)` and stops where the printed text ends. |
| FaithfulTrees.RoundTripExactly | ast/unparse.go:10-15 | Unparse's promise decided: the printed tree parses back to itself if and only if it holds none of five shapes (walrus directly as body or test of a conditional, await left of `**`, empty set, one-element tuple of a slice as subscript, target not rooted in a name nor led by a parenthesis). |
| FaithfulTrees.RoundTripAt | parser/parser.go:116-606 | The same if-and-only-if at every precedence and every ladder level, with following text left unread. |
| FaithfulTrees.PrintInjective | ast/unparse.go:10-15 | Two different faithful trees never print alike. |
| FaithfulTrees.WalrusBodyChanges | ast/unparse.go:738-750 | An input for the first shape: the printed conditional comes back as a walrus around it. |
| FaithfulTrees.WalrusTestRejected | ast/unparse.go:738-750 | An input for the first shape in the test: the printed text is refused. |
| FaithfulTrees.AwaitPowerChanges | ast/unparse.go:1102-1126 | An input for the second shape: the await moves outside the power. |
| FaithfulTrees.CallTargetRejected | parser/parser.go:1605-1714 | A comprehension target hung on a call is printed as it is and refused. |
| FaithfulTrees.WordTargetChanges | parser/parser.go:1679-1714 | A target hung on `None` comes back with a name in its place. |
| FaithfulTrees.ParenTargetSurvives | parser/parser.go:1617-1652 | A target hung on a parenthesized sum comes back unchanged. |
| RoundTrip.SliceTupleRejected | ast/unparse.go:978-998 | Every one-element tuple of a slice, as a subscript, is printed as text that the subscript parser refuses. |
| PrinterState.Printer.Expr | ast/unparse.go:704-906 | Appends to the buffer exactly the tokens of `Print` and nothing else, parentheses included. |
| PrinterState.Printer.Params | ast/unparse.go:1241-1335 | Appends a parameter list with its defaults aligned to the right and its markers as `PrintArguments` specifies. |
| ParserState.Parser.PeekTok | parser/parser.go:80-91 | Looks one token ahead without changing the current token or what remains to be read. |
| ParserState.Parser.ParseExpr | parser/parser.go:116-193 | Returns the grammar's tree for the tokens that were left, or none where the grammar has none, and leaves exactly the grammar's rest. |
| ParserState.Parser.ParseCompare | parser/parser.go:293-368 | The comparison loop with its two-token operators gives the grammar's chain. |
| ParserState.Parser.ParseSubscriptBody | parser/parser.go:609-637 | The loop over subscript items gives the grammar's index or tuple, trailing comma included. |
| ParserState.Parser.ParseCallArgs | parser/parser.go:690-799 | The argument loop, with keyword, starred and bare-generator arguments, gives the grammar's argument lists. |
| ParserState.Parser.ParseParenAtom | parser/parser.go:1229-1284 | Group, tuple, generator and empty tuple are told apart as in the grammar. |
| ParserState.Parser.ParseBraceAtom | parser/parser.go:1331-1486 | Set, dictionary and their comprehensions are told apart as in the grammar. |
| ParserState.Parser.ParseTargetAtom | parser/parser.go:1605-1714 | The target parser's four branches and its trailer loops give the grammar's target. |
| ParserState.Parser.ParseLambdaArgs | parser/parser.go:1737-1815 | The parameter loop with its markers gives the grammar's parameter list. |
| ParserState.ParseExpression | parser/parser.go:32-46 | A whole text gives a tree if and only if the grammar reads all of it. |
| ExprSpellings.TestlistComma | parser/stmt.go:346-373 | For every list of elements, a comma after the last one, before any token that may end a list, makes the list the tuple of them, of a single one too. |
| ExprSpellings.DisplayComma | parser/parser.go:1286-1486 | A comma before the closing bracket of a list or set display changes nothing. |
| ExprSpellings.TupleComma | parser/parser.go:1229-1284 | The same for a tuple in parentheses, and one element with a comma is a tuple. |
| ExprSpellings.DictComma | parser/parser.go:1331-1486 | The same for a dictionary, with `**` items. |
| ExprSpellings.CallComma | parser/parser.go:690-799 | The same for the arguments of a call, positional, starred, named and mapped. |
| ExprSpellings.BareGenerator | parser/parser.go:690-799 | A generator that is the only argument is read without parentheses of its own. |
| ExprSpellings.SubscriptComma | parser/parser.go:609-637 | Every list of indexes, slices among them, with a comma at its end is the tuple of them. |
| ExprSpellings.StarredIndex | parser/parser.go:609-637 | A starred index is the tuple of it. |
| ExprSpellings.EmptyStep | parser/parser.go:639-688 | A second colon with nothing after it is a slice without a step. |
| ExprSpellings.ParenAround | parser/parser.go:1229-1284 | Every expression in parentheses, needed or not, is read as itself. |
| ExprSpellings.StringsJoined | parser/parser.go:859-1073 | Strings side by side are one string of the kind of the first; they are refused if and only if bytes stand beside others. |
| ExprSpellings.LambdaComma | parser/parser.go:1737-1815 | Every parameter list of a lambda is read with a comma after its last parameter, star parameters included. |
| ExprSpellings.TargetComma | parser/parser.go:1577-1603 | Targets with a comma before the `in` are a tuple, a single one too. |
| ExprSpellings.YieldAlone | parser/parser.go:138-173 | A yield before a comma or the end of a list has no value. |
| DefParams.ParamsRoundTrip | parser/stmt.go:1409-1538 | Every well-formed parameter list of a definition, printed and read, with a comma after the last parameter or not, comes back with each default at its own parameter, each part as it is itself read back, or is refused exactly when one of its parts is. |
| StmtRoundTrip.ReadBody | parser/stmt.go:1358-1396 | For every body at every nesting and indentation, the statement parser builds `ReBody(b)` from its tokens and leaves what follows the body. |
| BlockLayout.ModuleLayout | ast/unparse.go:54-60 | The printed text of every module, run through the layout layer, is the token stream in which INDENT and DEDENT enclose each of its blocks. |
| ModuleRoundTrip.PrintThenParseModule | ast/unparse.go:134-158 | Text of a module through layout and statement parser gives `ReBody(b)`, for all statements modelled. |
| ModuleRoundTrip.ModuleRoundTripExactly | ast/unparse.go:10-15 | A module comes back from its text if and only if it is faithful: every expression and target is, no block is empty, annotated names stand bare, and no line of a simple statement is `MatchStart` or `TypeStart`. |
| ModuleRoundTrip.SourceInjective | ast/unparse.go:10-15 | Two faithful modules with the same text are the same module. |
| ModuleRoundTrip.MatchMinus | parser/stmt.go:144-179 | `match - 1` is a well-formed module whose printed text the statement parser refuses. |
| ModuleRoundTrip.MatchNamed | parser/stmt.go:124-179 | The printed line of an assignment to `match` or `type`, whatever its value, begins neither a match statement nor a type alias. |
| PlainText.CheckRoundTrip | parser/stmt.go:28-58 | Printer, scanner and parser run one after the other: the result is `ReBody(b)`, and it is b if and only if b is faithful. |
| LedRoundTrip.ReadLed | parser/stmt.go:480-757 | Every import, from-import with its dots and its star, raise with its cause, del, assert, global and nonlocal statement, printed and read, comes back as its parts do, or is refused exactly when one of them is or a target of `del` is none. |
| StmtSpellings.ReadLine | parser/stmt.go:181-221 | Every list of simple statements with semicolons between them is read in order, each as it is read alone, with a semicolon at the end or not. |
| StmtSpellings.ReadInline | parser/stmt.go:1391-1396 | A suite on the line of its header holds the statements of that line, and what follows the line is left. |
| StmtSpellings.InlineIsBlock | parser/stmt.go:1358-1396 | Such a suite is the suite of the same statements on lines of their own, indented. |
| StmtSpellings.StatementLine | parser/stmt.go:95-117 | The same line in a module or a block; it is refused if its first statement looks like a match statement or a type alias. |
| StmtSpellings.WithoutLineEnd | parser/stmt.go:181-221 | The last line of a text, or of a block, may do without its line end. |
| StmtSpellings.BlankLines | parser/stmt.go:70-93 | Line ends without a statement are passed over. |
| StmtSpellings.AssignComma | parser/stmt.go:268-341 | `x = y = 1,`: for every chain of targets and every list with a comma at its end, the value is the tuple. |
| StmtSpellings.AssignYield | parser/stmt.go:268-341 | A yield is a value without parentheses. |
| StmtSpellings.CommaValue | parser/stmt.go:268-478 | The same comma after a returned, an annotated and a bare value. |
| StmtSpellings.ListValue | parser/stmt.go:268-341 | The value of an annotated name may be a list without parentheses. |
| StmtSpellings.DelComma | parser/stmt.go:703-733 | A comma after the last target of `del` changes nothing. |
| StmtSpellings.FromParens | parser/stmt.go:528-596 | Imported names in parentheses, a comma after them or not, and dots in any mixture of one and three, are read as the import they stand for. |
| StmtSpellings.HandlerTypes | parser/stmt.go:962-1017 | Exceptions listed without parentheses are a tuple; one with a comma is too. |
| StmtSpellings.MixedHandlers | parser/stmt.go:962-1060 | For every mixture of `except` and `except*` the handlers are read in order, and one star makes the statement one with stars. |
| StmtSpellings.BasesComma | parser/stmt.go:1319-1356 | Empty parentheses after the name of a class, and a comma after its last base, are read. |
| StmtSpellings.TargetsExactly | parser/stmt.go:268-341 | An expression is taken for a target if and only if every leaf of its lists and tuples is a name, an attribute, a subscript or starred. |
| StmtSpellings.MatchExactly | parser/stmt.go:144-179 | `match` begins a match statement if and only if the first token of an expression, a star or a yield follows, and, where that is a parenthesis or a bracket, a colon comes right after the one that closes it. |
| StmtSpellings.MatchPrinted | parser/stmt.go:144-179 | Every printed subject that begins with no bracket is seen as one. |
| StmtSpellings.MatchBrackets | parser/stmt.go:144-179 | So is every subject in parentheses, and every list. |
| StmtSpellings.TypeExactly | parser/stmt.go:124-138 | `type` begins a type alias if and only if a name follows that is no word of the language, not `match` and not `case`. |
| StmtSpellings.TryAlone | parser/stmt.go:1052-1055 | A try with neither handlers nor `finally` is refused, with an `else` or without. |
| StmtSpellings.NoTwoOnALine | parser/stmt.go:181-221 | Two names side by side are not a line. |
| StmtSpellings.NoIndent | parser/stmt.go:1358-1396 | A colon at the end of a line without an indented block after it is refused. |
| StmtSpellings.OnlyDefinitions | parser/stmt.go:805-843 | Decorators are read before a function or a class only. |
| StmtSpellings.OneStar | parser/stmt.go:1409-1492 | A second star among parameters, or a slash after a star, is refused. |
| StmtSpellings.BareComma | parser/stmt.go:528-596 | A comma after imported names without parentheses is refused. |
| StmtPrinterState.WriteLed | ast/unparse.go:194-352 | The printer appends exactly `PrintLed` for each of these statements. |
| StmtParserState.ParseLed | parser/stmt.go:480-757 | Their parsers return and leave what the grammar does. |
| StmtPrinterState.UnparseModule | ast/unparse.go:106-158 | The printer, with its indentation level moved around each block, appends exactly `PrintBody`. |
| StmtParserState.LooksLikeMatch | parser/stmt.go:144-179 | The look-ahead answers `MatchStart`, by the token after `match` and, at a bracket, by the scan for a colon after the bracket that closes it. |
| StmtParserState.ParseTry | parser/stmt.go:962-1060 | Handlers, `except*`, else and finally are read as in the grammar, and a try with neither handler nor finally is refused. |
| StmtParserState.ParseParams | parser/stmt.go:1409-1492 | The parameter loop and its state give the grammar's parameter list. |
| StmtParserState.ParseBlock | parser/stmt.go:1358-1396 | A suite on its own lines or on the header's line is read as in the grammar, which ReadBody, ReadInline and NoIndent pin. |
| StmtParserState.ParseFile | parser/stmt.go:28-93 | A text gives a module if and only if its logical tokens are a module of the grammar, and then that one. |
| Layout.LogicalIsLineBased | lex/indent.go:43-130 | One pass over any physical text gives the tokens of its logical lines as section 2.1 of the Python Language Reference cuts them. |
| Layout.LogicalLaws | lex/indent.go:43-130 | For every text: blocks balance, content is kept in order, and comments too when they are asked for, which adds nothing else; the stream is at most twice as long. |
| Layout.EmptyLineVanishes | lex/indent.go:43-130 | A line without code, blank or with a comment or a backslash, changes nothing, however far it is indented. |
| Layout.BrokenAnywhere | lex/indent.go:43-130 | From inside a line on, line ends between any brackets, continuations and comments may be written as blanks. |
| LexIndent.Indent.Next | lex/indent.go:43-130 | Each call hands out the next token of the specified stream whatever is queued, fails exactly where that stream is rejected, and ends after the end marker. |
| LexIndent.All | lex/indent.go:166-178 | Draining the layer gives the whole stream, or nothing if and only if the text is rejected. |
| StmtScanner.Scanner.NextInternal | parser/lex.go:524-669 | Each call hands out the next token of the same specified stream, from a count of owed dedents and two flags. |
| StmtScanner.Run | parser/lex.go:516-669 | Reads a whole text to the specified stream in at most twice its length and two calls. |
| LayoutAgreement.Compare | lex/indent.go:43-178 | On every space-indented text both scanners reject alike and otherwise hand out the same tokens, those of the line-based specification, but for the end marker of the one. |
| Consumption.EatExpr | parser/parser.go:116-136 | What the parser leaves of a text is a balanced distance further on, and has no await that the text had not. |
| FrontEndAgreement.FrontEndsAgreeExactly | legacy/parser/grammar_expr.go:11-387 | Whatever the v2 parser reads of a text without an await, without a word of the language before `:=` or `=`, without a starred dictionary key and with plain `for` targets, the legacy grammar reads to the same token; and the emitted tree is v2's if and only if the parts collected are regular. |
| FrontEnds.ExprAgrees | legacy/parser/grammar_expr.go:11-387 | On such text the parts that the legacy grammar collects, atoms, trailers, arguments, subscripts, displays, comprehensions and lambdas among them, are those of which the v2 parser makes its tree, and both stop at the same token. |
| FrontEnds.TargetsAgree | legacy/parser/grammar.go:462-486 | The targets of a comprehension, operands to the one and a grammar of their own to the other, are the same up to the `in`. |
| FrontEnds.LambdaAgrees | legacy/parser/grammar_expr.go:35-52 | A lambda's parameters, all parts of which may be missing in the one grammar and none in the other, come to the same argument lists. |
| EmitterTrees.SameTreeExactly | ast/emit.go:661-1239 | Of any parts whatever, emitter and v2 parser make the same tree if and only if the parts are regular. |
| EmitterTrees.ShiftedExactly | ast/emit.go:1166-1205 | The emitter makes a tuple of just what the v2 parser makes exactly of parentheses around one starred or again shifted element; there two departures cancel. |
| LegacyEmit.EmitExpr | ast/emit.go:682-725 | The emitter's recursion and loops compute `Emit` of the collected tree. |
| LegacyEmit.EmitArguments | ast/emit.go:549-589 | The loop over a lambda's parameters, with slash, star and double star, computes the specified argument lists. |
| LegacyEmit.EmitLevel | ast/emit.go:795-970 | The loops over operands fold to the left, and an await takes the base of a power. |
| FrontEnds.AwaitExactly | legacy/parser/grammar_expr.go:162-184 | Where the v2 parser reads an await, the legacy grammar reads the same if and only if its operand begins with no sign and no `**` follows its primary. |
| FrontEndAgreement.IfNamed | legacy/parser/grammar_expr.go:28-33 | An input, for every number: `if := 3` is a named expression to the one and a name to the other. |
| FrontEndAgreement.StarredKeyRead | parser/parser.go:1331-1486 | An input, for every name and number: `{*x: 1}` is a dictionary to the one and refused by the other. |
| FrontEndAgreement.NoneTarget | parser/parser.go:1679-1714 | An input: the target `None` is a name to the one and a constant to the other. |
| FrontEndAgreement.OneComma | ast/emit.go:1000-1010 | An input, for every name: the index of `a[i,]` is the name to the one and a tuple to the other. |
| FrontEndAgreement.CommaMakesUp | ast/emit.go:1219-1239 | An input, for every regular expression x: inside `yield (*x),` the trees differ, and the yields are the same. |
| FrontEndAgreement.LegacyParse | ast/emit.go:682-970 | The legacy side run on a whole text: it gives the emitted tree of what the grammar reads to the end, and v2's tree if and only if the text is regular. |
| SymbolTable.Build | symbols/symbols.go:97-105 | The table of every module: each scope holds exactly the names its syntax binds, reads and declares global or nonlocal, nested scopes in order. A name is Free where a function-like scope reads it and neither binds nor declares it, and one around it binds it; the nearest of these, classes aside, and no other scope has the Cell. |
| SymbolTable.Builder.Statement | symbols/symbols.go:186-303 | Walking a statement adds to the current scope what the statement binds, reads and declares, to new children what its nested scopes do, and to nothing else; the current scope is restored. |
| SymbolTable.Builder.Expr | symbols/symbols.go:405-518 | The same for an expression; a walrus goes to the nearest scope that is not a comprehension. |
| SymbolTable.Builder.Declarations | symbols/symbols.go:292-300 | The names of a global or nonlocal statement are marked as declared in the current scope, and in no other. |
| SymbolTable.Builder.Imports | symbols/symbols.go:273-291 | Each imported name is bound under its alias or, of a dotted path, under the first part; a star binds nothing. |
| SymbolTable.Builder.Declare | symbols/symbols.go:159-184 | A global or nonlocal declaration is recorded and clashes exactly when the name was declared the other way. |
| SymbolTable.Builder.Resolve | symbols/symbols.go:636-655 | The pass from the root down puts exactly the defined free and cell marks, whatever the order in which names are visited; FreeExactly and CellExactly say in flags what they are. |
| SymbolTable.Builder.LookupCapturable | symbols/symbols.go:657-675 | The search upwards finds the owner of a captured name. |
| SymbolTable.Builder.ResolveName | symbols/symbols.go:687-703 | The lookup of a read name gives the scope and the crossing that the rules give. |
| SymbolTable.MarksAreStable | symbols/symbols.go:636-655 | What is free or cell does not depend on marks already set. |
| Scopes.OwnerIsNearest | symbols/symbols.go:657-675 | The owner of a name is the nearest scope above that binds it, classes passed over, and no module. |
| Scopes.FreeExactly | symbols/symbols.go:636-655 | For every tree, a name is free in a scope if and only if the scope is function-like and reads it, neither binds it nor declares it global or nonlocal, and a function-like scope around it binds it. |
| Scopes.CellExactly | symbols/symbols.go:636-655 | A scope has the cell of a name if and only if the name is free in some scope below of which this is the nearest binder. |
| Scopes.FreeHasCell | symbols/symbols.go:636-655 | Every free name has its cell in that nearest scope. |
| Scopes.FreeByLookup | symbols/symbols.go:636-703 | For every tree, declarations included, a read name is free if and only if the lookup leaves a function-like scope and the name can be captured from where the lookup ends; it is captured from that very scope if and only if the scope binds it. |
| Scopes.DeclaredBetween | symbols/symbols.go:636-703 | An input, for every name: a function that declares it global stands between its reader and its binder; the lookup ends there, and the marks capture from further out. |
| Scopes.LookupExactly | symbols/symbols.go:687-703 | The lookup ends in the nearest scope that binds or declares the name, classes other than the reader passed over, and says that it crossed if and only if a function-like scope lies on the way. |
| NameMarks.TableHolds | symbols/symbols.go:97-105 | For every module, name and role: some scope of the table has the name bound, read, declared global or declared nonlocal if and only if it is written in that role somewhere in the module. |
| NameMarks.StmtNames | symbols/symbols.go:186-403 | No name of a statement, nested definitions included, is lost, invented or given another role. |
| NameMarks.ReadsMarks | symbols/symbols.go:405-518 | The same for expressions. |
| NameMarks.FunctionPlaces | symbols/symbols.go:311-335 | Name, decorators, defaults and return type of a function belong where it is defined, parameters, annotations and body to its own scope. |
| NameMarks.ClassPlaces | symbols/symbols.go:375-392 | Name, decorators, bases and keywords of a class belong where it is defined, the body to its own scope. |
| NameMarks.LambdaPlaces | symbols/symbols.go:430-436 | A lambda does nothing where it stands. |
| NameMarks.ComprehensionPlaces | symbols/symbols.go:520-541 | Of a comprehension only the first iterable is read where it stands; all else is read in its own scope or below. |
| Bindings.ComprehensionBindsTargets | symbols/symbols.go:520-541 | The scope of every list, set, dictionary and generator comprehension binds its targets, declares nothing, and hands every walrus in it to the scope outside. |
| LintConfig.ConfigKey | linter/cache.go:143-173 | The key of a configuration has its lists sorted, glob by glob. |
| LintConfig.KeyIsFunction | linter/cache.go:143-173 | Two configurations have the same key if and only if they hold the same codes, in any order. |
| LintConfig.KeyDecides | linter/config.go:22-47 | Configurations with one key enable the same codes in every file; by EnabledExactly those are the reportable ones. |
| LintConfig.EnabledExactly | linter/config.go:22-47 | A code is enabled for a file if and only if it is among the selected ones, if there are any, is not ignored, and is in no list of a pattern that matches the file. |
| LintCache.Cache.Lookup | linter/cache.go:95-119 | Finds an entry exactly when path, times and key fit. |
| LintCache.Cache.Store | linter/cache.go:121-141 | Replaces the entry of the path and no other, and marks the cache as changed. |
| LintCache.DistinctFiles | linter/cache.go:121-141 | Paths of which no two lead to one file meet the condition under which every run reports what linting afresh does. |
| LintCache.ReportedExactly | linter/parallel.go:24-41 | A result is what a run without a cache reports for a file if and only if it is the first failure, or holds the diagnostics that linting finds at exactly those places where the code is selected, not ignored and not excluded by a pattern, in their order. |
| LintCache.LintOneFile | linter/parallel.go:88-116 | One file through an honest cache gives what linting it afresh gives, and that is the report of ReportedExactly; the cache stays honest. |
| LintCache.LintSerially | linter/parallel.go:61-66 | A serial run reports for every path, in order, what linting it afresh gives: the first failure, or the selected, not ignored and not excluded diagnostics of the file. |
| LintWorkers.StepKeeps | linter/parallel.go:76-84 | Every step of every worker keeps the pool sound and the shared cache honest. |
| LintWorkers.EveryInterleaving | linter/parallel.go:43-86 | In every finished run, under any schedule, each slot holds what a run without a cache reports for its path, and each path was taken exactly once, if no two listed spellings of one file are told apart by the configuration. |
| LintWorkers.SameResults | linter/parallel.go:43-86 | Number of jobs asked for, processors, schedule and starting cache make no difference to the results. |
| LintWorkers.RunsEnd | linter/parallel.go:76-84 | Every run has at most six steps a file and one a worker, and until all have finished some worker can move. |
| LintWorkers.AlwaysFreshExactly | linter/parallel.go:43-86 | With two or more workers, every finished run from every honest cache reports what linting afresh does if and only if any two listed paths with the same absolute path and the same times have the same result under the configuration; otherwise a schedule that finishes the one before it starts the other reports wrongly. |
| LintWorkers.TwoSpellings | linter/cache.go:95-141 | An input on a run: one file under two names that a per-file pattern tells apart, two workers, and a finished run whose report is wrong. |
| Bytes.DecodeEncode | parser/ast_dump.go:92-101 | Every code point is decoded as it was encoded, and exactly the surrogates are found as surrogates. |
| Literals.BytesRoundTrip | parser/ast_dump.go:139-188 | Every string of bytes printed by pyBytesRepr comes back from scanString, which stops at the closing quote. |
| Literals.LiteralRoundTrip | ast/unparse.go:1445-1483 | The same for the printer of bytes literals with the flat scanner and decodeEscapes, never mistaken for a triple-quoted literal. |
| Literals.ReprRoundTrip | parser/ast_dump.go:82-137 | Every string of code points, lone surrogates among them, comes back from its repr, whatever the table of printable characters. |
| Literals.StringRoundTrip | ast/unparse.go:1435-1518 | Both readers take a printed string literal to its closing quote and agree on its value; that is the string printed if and only if it holds no lone surrogate. |
| Literals.HighBytesDiffer | ast/emit.go:1419-1498 | An input: `\xe9` in a string is two bytes to scanString and one to decodeEscapes; ReadersAgreeExactly says on which bodies they agree. |
| LiteralReaders.ReadersAgreeExactly | ast/emit.go:1419-1498 | Every literal that the flat scanner takes, without named characters outside bytes, scanString takes to the same quote; the two values are the same if and only if all escapes are common: no `\x` or octal escape of 0x80 or more outside bytes, and no `\u` or `\U` in bytes or of a surrogate. |
| LiteralReaders.NamedCharacter | parser/lex.go:1008-1242 | An input: `\N{...}` is a character to scanString and stays as it is written in decodeEscapes. |
| LiteralSpellings.SpelledLiteral | parser/lex.go:1008-1242 | For every value and every way to spell it (the byte itself, `\a` to `\v`, one to three octal digits, `\x`, `\u` and `\U` with digits in either case, an escaped line end, a name, a pair that is no escape), between quotes of any of the four kinds, scanString gives the value and stops after the closing quote. |
| LiteralSpellings.SpelledDecode | ast/emit.go:1419-1498 | decodeEscapes gives for every such spelling the bytes it stands for. |
| LiteralSpellings.OctalRead | parser/lex.go:1154-1174 | One, two or three octal digits are worth the number they spell. |
| LiteralSpellings.HexRead | parser/lex.go:1137-1153 | Hexadecimal digits in either case are worth the number they spell. |
| LiteralSpellings.Unterminated | parser/lex.go:1008-1242 | No such body without its closing quote is a literal. |
| LiteralSpellings.RawLiteral | parser/lex.go:1079-1103 | A raw literal is its body as it stands, and a quote after a backslash does not end it. |
| LiteralSpellings.UnitsTaken | lex/strings.go:343-400 | scanFlatString takes every body of single bytes and of pairs with a backslash up to its closing quotes. |
| LiteralSpellings.OnlyUnitsTaken | lex/strings.go:343-400 | It takes nothing else; a line end needs three quotes. |
| Literals.FastPathAgrees | parser/lex.go:1033-1051 | Wherever the fast path of scanString applies it gives the value and the rest that the loop gives. |
| Literals.FastPathPosition | parser/lex.go:1033-1051 | Its line and column are the loop's if and only if the value has no line end. |
| LiteralCode.SurrogateMasks | parser/lex.go:1674-1682 | The shifts and masks on machine words write the encoding of every surrogate. |
| LiteralCode.SurrogateWords | parser/ast_dump.go:94-99 | The masks that find a surrogate undo the masks that write it. |
| LiteralCode.PyBytesLiteral | ast/unparse.go:1445-1483 | The loop writes the specified literal of every string of bytes. |
| LiteralCode.PyRepr | parser/ast_dump.go:82-137 | The loop over bytes, with its test for surrogates, writes the specified repr. |
| LiteralCode.PyStringLiteral | ast/unparse.go:1435-1443 | The loop over decoded characters writes the specified literal. |
| LiteralCode.DecodeAll | ast/emit.go:1419-1498 | The loop of decodeEscapes computes the decoded text of every body. |
| LiteralCode.Cursor.ScanString | parser/lex.go:1008-1242 | Value and rest are those of the specified literal, in the fast path and in the loop, and the position is right exactly when the fast path has taken no line end. |
| LiteralCode.Cursor.ScanFlatString | lex/strings.go:343-400 | Body, rest and position are those of the specified literal. |
| PatternRoundTrip.PatternRoundTripExactly | parser/stmt.go:1626-2159 | A printed pattern before a colon or a guard is read back as itself, with the rest left over, if and only if no dotted name in it begins with the wildcard and no mapping collects its rest as `match` or `case`; otherwise the parser fails or stops short. |
| PatternRoundTrip.PatternsInjective | ast/unparse.go:596-698 | Faithful patterns that print alike are the same. |
| PatternRoundTrip.NotRead | parser/stmt.go:1851-1893 | Inputs for both failing shapes. |
| PatternSpellings.ParenSequence | parser/stmt.go:1987-2030 | Every list of two or more faithful patterns, stars included, in parentheses, with a comma at the end or not, and one with a comma or a star, is the sequence that brackets give. |
| PatternSpellings.OpenSequence | parser/stmt.go:1626-1657 | The same without brackets, up to the colon or the guard. |
| PatternSpellings.ParenOne | parser/stmt.go:1987-2030 | One pattern in parentheses is that pattern, and nothing in them is the empty sequence. |
| PatternSpellings.BracketSequence | parser/stmt.go:1960-1983 | A comma before the closing bracket of a sequence changes nothing. |
| PatternSpellings.MappingComma | parser/stmt.go:2033-2085 | The same for a mapping, after `**rest` too. |
| PatternSpellings.ClassComma | parser/stmt.go:1895-1958 | The same for the arguments of a class. |
| PatternSpellings.PositionalLate | parser/stmt.go:1895-1958 | A positional argument after a keyword is refused. |
| PatternSpellings.StarAlone | parser/stmt.go:1626-1657 | A star alone is no pattern of a case. |
| PatternSpellings.WildcardAs | parser/stmt.go:1685-1710 | `as _` is refused. |
| PatternSpellings.NoCapture | parser/stmt.go:1851-1893 | A word of the language is no capture. |
| PatternCode.WritePattern | ast/unparse.go:596-698 | The printer appends exactly `PrintPattern`. |
| PatternCode.CasePattern | parser/stmt.go:1626-1657 | The parser returns and leaves what the pattern grammar does. |
| PatternCode.PrintAndParse | parser/stmt.go:1626-2159 | Printer and parser run in a row give the pattern back if and only if it is faithful. |
| Trivia.AttachComments | cst/trivia.go:49-106 | In one pass every statement, and the file, gets exactly the comments that the ownership rule gives it, in source order and labelled leading or trailing. |
| Trivia.OneOwner | cst/trivia.go:125-146 | A comment has no two owners. |
| Trivia.HasOwner | cst/trivia.go:125-146 | Every comment has an owner among the statements and the file. |
| Trivia.Conservation | cst/trivia.go:49-106 | The lists together are the comments of the text, each exactly once. |
| Trivia.TrailingExactly | cst/trivia.go:49-106 | A comment counts as trailing if and only if the last token before it ends on the comment's line and begins there too. |
| Trivia.NextReal | cst/trivia.go:49-106 | A comment that is not trailing looks to the first token after it that is neither layout nor a comment. |
| Trivia.OwnerIsNext | cst/trivia.go:125-146 | Of statements in pre-order, a trailing comment goes to the one that begins last among those ending on its line, a leading one to the first that begins where the code after it does or later. |
| Trivia.AfterLongToken | cst/trivia.go:49-106 | An input: a comment on the line where a token of two lines ends is given away as leading. |
| DeadStores.Fixer.ScanDeadStoreLiteral | legacy/linter/fix.go:256-278 | The scan keeps the specified statements and reports one fix for each it drops. |
| DeadStores.DropsExactly | legacy/linter/fix.go:256-337 | From every body exactly the stores `x = CONSTANT` go that `x = e` or `x: T = e` follows, with one report each at the later name; all else stays in its order. |
| DeadStores.OneFixEach | legacy/linter/fix.go:256-278 | Statements kept and fixes reported add up to the statements of the body. |
| DeadStores.Idempotent | legacy/linter/fix.go:256-278 | A second pass over a fixed body drops and reports nothing. |
| DeadStores.PassPreserves | legacy/linter/fix.go:245-278 | From every state and under every meaning of operators and other statements, which may see and change the shared variables, a fixed body does what the body did, failures and what they leave in shared variables included, when each dropped store is unseen: no rebinding reads the name it binds, and a rebinding of a shared name applies nothing. |
| DeadStores.DroppableExactly | legacy/linter/fix.go:302-337 | A store the fixer looks for may go, in every context and under every meaning of operators, if and only if the next statement does not read its name and, when the name is shared with closures or other scopes, binds it to a constant. |
| DeadStores.StaleRead | legacy/linter/fix.go:256-278 | An input: a body that ran fails after the fix. |
| DeadStores.CapturedRead | legacy/linter/fix.go:256-337 | An input: `h = lambda: x`, `x = 1`, `x = h()` runs before the fix and fails after it. |
| DeadStores.GlobalLeft | legacy/linter/fix.go:256-337 | An input: where a failing call rebinds a global, the old value is left in place of the dropped one. |

## Left out

- FrontEndsAgreeExactly: speaks of text that the v2 parser reads, in one direction: the legacy grammar reads more,
  for it takes any word for the name of a keyword argument or of a walrus and leaves an optional part that fails,
  and what it does with text that v2 refuses is not stated. At each await AwaitExactly decides. An alternative of
  the grammar library may be given up after 96 tokens; the model gives it up after any number. Positions, f-strings
  and t-strings are not in the trees.
- PassPreserves: one direction for a whole body, for a later store can make up for a dropped one by accident; for a
  single fix DroppableExactly has both directions. Which variables are shared is given, not computed.
- AlwaysFreshExactly: with one worker, or serially, the condition is sufficient and not necessary, for the order of
  the paths is then fixed.
- ReadersAgreeExactly: named characters outside bytes are left to NamedCharacter, for their names are a parameter.
- CheckRoundTrip: the bytes inside a token, and the blanks between tokens of a line, are not part of the text that
  is passed from the printer to the scanner.
- LooksLikeMatch: the colon after a bracket is looked for on the tokens of the line instead of on its bytes.
- Compare: tabs, form feeds, vertical tabs and carriage returns in indentation are not modelled, nor are lexical
  errors inside a line.
- Build: scopes refer to each other by number instead of by pointer; positions of bindings and uses, type
  parameters, with and match statements are not modelled, and of the builder's diagnostics only the clash of two
  declarations. As in `symbols.go`, `try` with `except*` has no case, the defaults of a lambda are not walked, and
  annotations are walked in the function's own scope.
- ReprRoundTrip: the table of printable characters and the table of character names are parameters.
- PatternRoundTripExactly: the printer's rewriting of a negative float or imaginary number in a value is not
  modelled, nor are the statement around the cases and their guards.
- ConfigKey: stops before the hash and its encoding; two keys are compared themselves.
- LintOneFile: files, their times and the linter's findings are functions that do not change during a run.
- AttachComments: statements are given in preorder as spans of lines.
- ScanDeadStoreLiteral: one body at a time; the walk into nested functions is not modelled.
- Statements without a model in the block round trip: with, match, type aliases; type parameters; f-strings and
  t-strings; lexical errors inside a line; positions and expression contexts.
- The six binary levels are one method with the level as an argument.
- The other fixers (comparison identity, unused imports), the other lint rules, saving and loading the cache, the
  language server, the command line, arenas and pools.
