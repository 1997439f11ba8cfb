# dbngine query front-end in Dafny

This project models the query front-end of dbngine, a small SQL engine
written in Go. The model covers these stages:

- **Byte classes** (`util/charutil.go`): whitespace, letters, digits,
  operators, delimiters and symbols.
- **Token vocabulary** (`parser/token.go`): the six token kinds, the nine
  reserved words, and the AND/OR connectives.
- **Tokenizer** (`parser/lexer.go`): one left-to-right scan that turns a
  query string into tokens.
- **Parser and validators** (`parser/parser.go`):
  - `Parse` and `parseSelect` build a `SelectStatement`.
  - `ParseWhere` and `parseWhereByToken` build a WHERE tree.
  - `ValidateTokens` and its four per-statement validators walk the tokens
    with a cursor and answer true or false.
- **Semantic check** (`parser/semantic_analyzer.go`): `Analyze` and
  `containsColumn`.
- **Wildcard expansion** (`parser/query_optimizer.go`): `Optimize`.
- **Table catalogue** (`engine/schema_manager.go`): an in-memory name→table
  map.

How the model is organised:

- A Go call ends in one of three ways. The shared `Outcomes.Outcome` type
  names them: a value (`Ok`), an `error` with its message (`Err`), or a
  run-time panic (`Panic`). The panic is either an index read past the end
  of a slice or a nil dereference.
- A validator's `bool` is `Ok(true)` or `Ok(false)`; a panic stays a
  `Panic`.
- Code that works by moving a cursor or updating fields is imperative
  Dafny:
  - `Lexer.Lexer` and `Parser.Parser` are classes;
  - `Engine.SchemaManager` is a class with a map field;
  - `QueryOptimizer.SelectQueryOptimizer` is a class.
- Each loop is a method, proved equal to a recursive function that says
  what the loop computes. The facts the source promises are proved as
  lemmas about those functions.
- The Go code's quirks are kept as written:
  - many checks are written `Type != X && Value != v`, and so accept a
    token that is of kind X or has value v;
  - the UPDATE assignment test is inverted;
  - several token reads have no bounds check;
  - a trailing operator makes the lexer read `input[pos+1]` past the end.

`parseWhere` (parser/parser.go:154-201) dereferences a nil pointer as soon
as a WHERE clause has a condition. The model keeps that behaviour as
written (`Grammar.SelectAsWritten`). It also gives the recogniser the loop
evidently is (`Grammar.SelectSpec`), and the rest of the model uses the
recogniser. The same loop exists as `validateWhereTokens`. On the
recogniser, `parseSelect` and `validateSelectTokens` agree exactly; see
"## Findings".

Two behaviours of the Go code worth knowing:

- The Go code splits a WHERE token run at its first connective. The tree
  therefore leans right, and `a AND b OR c` is `a AND (b OR c)`
  (`WhereBuilder.GroupsToTheRight`).
- `Analyze` treats `*` like any other column name, so it rejects `*`
  unless the table has a column of that name.

## Model

| member | source | states |
|---|---|---|
| CharUtil.IsWhitespace | util/charutil.go:7-9 | space, tab, newline and carriage return; its disjointness from the other classes is `CharUtil.ClassesDisjoint` |
| CharUtil.IsLetter | util/charutil.go:11-13 | the ASCII letters `a`-`z` and `A`-`Z` |
| CharUtil.IsDigit | util/charutil.go:15-17 | the ASCII digits `0`-`9` |
| CharUtil.IsOperator | util/charutil.go:19-22 | membership in `+-*/=<>!`, as a set in `CharUtil.OperatorClassesExact` |
| CharUtil.IsDelimiter | util/charutil.go:24-27 | membership in `,` |
| CharUtil.IsSymbol | util/charutil.go:29-32 | membership in `();` |
| CharUtil.OperatorClassesExact | util/charutil.go:19-32 | the operator class is exactly `+-*/=<>!`, the delimiter class exactly `,`, the symbol class exactly `(`, `)`, `;` |
| CharUtil.ClassesDisjoint | util/charutil.go:7-32 | no byte is in two of the six classes, and neither quote is in any |
| CharUtil.ClassesAreAscii | util/charutil.go:7-32 | every classified byte is ASCII |
| Tokens.GetKeywordOrIdentifier | parser/token.go:37-44 | KEYWORD exactly for the nine reserved words, IDENTIFIER for every other string |
| Tokens.IsConditionalOperator | parser/token.go:46-52 | true exactly for `AND` and `OR` |
| Tokens.CaseSensitive | parser/token.go:37-52 | matching is exact: `select` and `Select` are identifiers, `and` is no connective |
| Tokens.VocabularyFacts | parser/token.go:16-35 | the reserved words and {AND, OR} are disjoint, there are nine reserved words, `WILDCARD` is `*` and `EQUALS` is `=` |
| Lexer.RunEnd | parser/lexer.go:42-44 | the inner scanning loops stop at the first byte outside the run: every byte before it is in the run |
| Lexer.RunEndUnique | parser/lexer.go:42-44 | a run's end is fixed by those two properties |
| Lexer.WordAt | parser/lexer.go:40-53 | a letter run always emits a token and advances past the run |
| Lexer.NumberAt | parser/lexer.go:55-63 | a digit run always emits a token and advances |
| Lexer.QuotedAt | parser/lexer.go:65-81 | a quote either emits a token and advances, or the literal is unclosed |
| Lexer.OperatorAt | parser/lexer.go:83-93 | an operator either emits a token and advances, or reads past the end |
| Lexer.NextStep | parser/lexer.go:33-108 | every turn of the outer loop that goes on strictly advances the cursor, so the scan terminates |
| Lexer.ScanToken | parser/lexer.go:33-108 | one turn of the loop, with its inner loops, computes `NextStep` |
| Lexer.WordStep | parser/lexer.go:40-53 | a maximal letter run becomes one token of that text: OPERATOR exactly for AND/OR, KEYWORD exactly for a reserved word, else IDENTIFIER |
| Lexer.NumberStep | parser/lexer.go:55-63 | a maximal digit run becomes one LITERAL holding those digits |
| Lexer.QuoteStep | parser/lexer.go:65-81 | a quote opens a literal closed by the next quote of either kind; the token holds the text between them; without a closing quote the step fails |
| Lexer.UnclosedFails | parser/lexer.go:65-81 | an unclosed quoted literal ends the whole scan in the "unclosed string literal" error, with no tokens |
| Lexer.OperatorStep | parser/lexer.go:83-93 | two operator bytes form one 2-byte OPERATOR, else it has 1 byte; an operator byte at the end reads past the input |
| Lexer.SingleByteStep | parser/lexer.go:35-38 | `,` is a one-byte DELIMITER, `(` `)` `;` one-byte SYMBOLs, whitespace and every other unquoted byte are dropped |
| Lexer.Scan | parser/lexer.go:30-108 | the outer loop from a cursor with the tokens produced so far; its properties are the Lexer lemmas below |
| Lexer.Lex | parser/lexer.go:27-111 | the whole tokenization: the token list, the unclosed-literal error, or the out-of-range panic |
| Lexer.ScanAgree | parser/lexer.go:30-108 | the scan from a position depends only on the input from that position on |
| Lexer.ScanConcat | parser/lexer.go:30-108 | scanning `a` then input that starts with a blank is scanning `a` and continuing on the rest |
| Lexer.ScanAcc | parser/lexer.go:28 | the tokens already produced are carried through the scan untouched |
| Lexer.LexAppend | parser/lexer.go:27-111 | tokenizing two inputs joined at a blank gives both token lists in order |
| Lexer.Lexer.constructor | parser/lexer.go:21-25 | NewLexer holds the given input |
| Lexer.Lexer.Init | parser/lexer.go:12-14 | InitLexer holds no input |
| Lexer.Lexer.SetInput | parser/lexer.go:16-19 | the input is replaced and the returned error is nil |
| Lexer.Lexer.Tokenize | parser/lexer.go:27-111 | the loop computes `Lex` of the lexer's input: the tokens, the unclosed-literal error, or the out-of-range panic |
| LexerExamples.WordPiece | parser/lexer.go:40-53 | a word alone, or after one blank, is one token holding the word, with its kind from the vocabulary |
| LexerExamples.WildcardExample | parser/lexer_test.go:49-66 | `SELECT * FROM users` gives KEYWORD SELECT, OPERATOR `*`, KEYWORD FROM, IDENTIFIER users |
| LexerExamples.ColumnsExample | parser/lexer_test.go:89-111 | `SELECT id, name, age FROM users` gives its 8 tokens |
| LexerExamples.ConjunctionExample | parser/lexer_test.go:136-161 | `SELECT id FROM users WHERE name = "marty" AND age = 18` gives its 12 tokens, with AND an OPERATOR |
| LexerExamples.InsertExample | parser/lexer_test.go:190-221 | the INSERT query gives the 18 tokens listed |
| LexerExamples.UpdateExample | parser/lexer_test.go:223-246 | `UPDATE users SET name = "marty" WHERE id = 1` gives its 10 tokens |
| LexerExamples.SimpleExample | parser/lexer_test.go:29-47 | `SELECT id FROM users` gives its 4 tokens |
| LexerExamples.SemicolonExample | parser/lexer_test.go:69-87 | `SELECT id FROM users;` ends in the SYMBOL `;` |
| LexerExamples.WhereExample | parser/lexer_test.go:113-134 | `SELECT id FROM users WHERE id = 1` gives its 8 tokens |
| LexerExamples.DisjunctionExample | parser/lexer_test.go:163-188 | the OR query gives its 12 tokens, with OR an OPERATOR |
| LexerExamples.DeleteExample | parser/lexer_test.go:314-334 | `DELETE FROM users WHERE id = 1` gives its 7 tokens |
| WhereBuilder.WhereByToken | parser/parser.go:138-152 | parseWhereByToken succeeds exactly on runs of length 4k+3; every other length reads out of range |
| WhereBuilder.WhereSpine | parser/parser.go:138-152 | the node k steps down the right spine has the connective at 4k+3 and the condition at 4k on its left; the last spine node is the last condition |
| WhereBuilder.LeafNames | parser/parser.go:138-152 | the condition names in order are the tokens at 0, 4, 8, ... |
| WhereBuilder.ParseWhere | parser/parser.go:117-136 | no tree for an empty stream or a first token that is neither a KEYWORD nor WHERE; otherwise the tree of the rest, whose length must be 4k+3 |
| WhereBuilder.GroupsToTheRight | parser/parser.go:147-151 | `a AND b OR c` is grouped `a AND (b OR c)` |
| WhereBuilder.MixedConnectivesExample | parser/parser.go:117-152 | the tree for `WHERE id = 1 AND age = 18 OR email = x` |
| Grammar.ColumnList | parser/parser.go:51-83 | the column loop never panics, stays in bounds and only appends to the columns |
| Grammar.FromClause | parser/parser.go:85-93 | FROM is optional; it panics exactly when the cursor or the table name is past the end |
| Grammar.WhereCursor | parser/parser.go:284-322 | without a leading WHERE the cursor does not move and the clause is empty |
| Grammar.Conditions | parser/parser.go:288-318 | the condition loop shared by parseWhere and the validators; `GrammarFacts.ConditionsExact` says where it stops |
| Grammar.WhereCursorAsWritten | parser/parser.go:154-201 | parseWhere as written: a non-IDENTIFIER after WHERE is "expected IDENTIFIER", an IDENTIFIER reaches the nil dereference |
| Grammar.Trailer | parser/parser.go:102-114 | after the clauses there may be one SYMBOL (or `;`), then the end, and nothing else |
| Grammar.SelectSpec | parser/parser.go:40-115 | parseSelect with the WHERE recogniser; `GrammarFacts.SelectValidatorAgrees` ties it to the validator |
| Grammar.SelectAsWritten | parser/parser.go:40-115 | parseSelect with parseWhere as written; `GrammarFacts.WhereAsWrittenPanics` shows its panic |
| Grammar.ParseSpec | parser/parser.go:21-38 | Parse; its cases are `GrammarFacts.ParseSelectOnly` |
| Grammar.ColumnsValid | parser/parser.go:223-253 | the validator's column loop stays in bounds |
| Grammar.SelectCursor | parser/parser.go:220-282 | validateSelectTokens before its `bool` |
| Grammar.ParenList | parser/parser.go:339-395 | the INSERT lists never panic and stay in bounds |
| Grammar.InsertCursor | parser/parser.go:324-404 | validateInsertTokens before its `bool`; `GrammarFacts.InsertExact` says which streams it accepts |
| Grammar.Assignments | parser/parser.go:415-442 | the SET loop stays in bounds; `GrammarFacts.AssignmentsExact` says where it stops |
| Grammar.UpdateCursor | parser/parser.go:406-485 | validateUpdateTokens before its `bool`; `GrammarFacts.UpdateExact` says which streams it accepts |
| Grammar.DeleteCursor | parser/parser.go:487-543 | validateDeleteTokens before its `bool`, from cursor 1; `GrammarFacts.DeleteExact` says which streams it accepts |
| Grammar.ValidateSpec | parser/parser.go:203-218 | ValidateTokens' dispatch on the first token; its cases are `GrammarFacts.ValidateDispatch` |
| GrammarFacts.ColumnLoopsAgree | parser/parser.go:51-83 | the parser's and the validator's column loops accept, reject and stop alike |
| GrammarFacts.SelectValidatorAgrees | parser/parser.go:220-282 | validateSelectTokens is true exactly when parseSelect (with the WHERE recogniser) succeeds, and the two panic alike |
| GrammarFacts.SelectAsWrittenAgrees | parser/parser.go:40-115 | where no WHERE condition is reached, parseSelect as written is the same, and validateSelectTokens is true exactly when it succeeds |
| GrammarFacts.ParseSelectOnly | parser/parser.go:21-38 | "expected KEYWORD" unless token 0 is a KEYWORD; only SELECT is parsed; any other keyword gives no node and no error |
| GrammarFacts.ValidateDispatch | parser/parser.go:203-218 | ValidateTokens is false unless token 0 is the KEYWORD SELECT, INSERT, UPDATE or DELETE |
| GrammarFacts.WhereAsWrittenPanics | parser/parser.go:160-168 | parseWhere as written panics on a nil pointer once WHERE is followed by an IDENTIFIER, where the recogniser never does |
| GrammarFacts.ConditionsNeverDereference | parser/parser.go:284-322 | the recogniser's condition loop never dereferences nil |
| GrammarFacts.WhereAsWrittenAgrees | parser/parser.go:154-201 | where no condition follows WHERE, parseWhere as written is the recogniser |
| GrammarFacts.ColumnListShape | parser/parser.go:51-83 | identifiers and delimiters alternate from the start; Columns are the identifiers in order, then `*` if the list ended at one; a list stopped early stops after an identifier, at a token that is neither |
| GrammarFacts.ConditionsShape | parser/parser.go:288-318 | where the loop stops, the tokens read are a run of conditions (IDENTIFIER, an OPERATOR or `=`, LITERAL) at every fourth token with AND/OR between them, ending after a condition at a non-connective or at the end |
| GrammarFacts.ConditionsAccepted | parser/parser.go:288-318 | conversely every such run is accepted and the loop stops where it ends, a trailing connective and an empty run at the end included |
| GrammarFacts.ConditionsExact | parser/parser.go:288-318 | the condition loop stops at a position exactly when a run of conditions ends there |
| GrammarFacts.WhereAccepts | parser/parser.go:284-322 | after a WHERE, the WHERE part stops at a position exactly when a run of conditions ends there; a bare WHERE at the end is accepted |
| GrammarFacts.WhereCursorToEnd | parser/parser.go:444-480 | the WHERE part consumes the rest of the stream exactly when the rest is empty or WHERE and a run of conditions to the end |
| GrammarFacts.ParenListShape | parser/parser.go:339-363 | items and delimiters alternate up to a token reading `)`, or up to the end |
| GrammarFacts.OpenListAccepted | parser/parser.go:339-363 | an alternating list that runs to the end is accepted without a `)` |
| GrammarFacts.ClosedListAccepted | parser/parser.go:339-363 | an alternating list closed by a `)` is accepted, and the cursor stops just after the `)` |
| GrammarFacts.InsertShape | parser/parser.go:324-404 | what validateInsertTokens needs: a KEYWORD (or INTO), a table, `(` columns, a KEYWORD (or VALUES), `(` values, and then the end |
| GrammarFacts.InsertFormNeeded | parser/parser.go:324-404 | every INSERT stream the validator accepts has the form `GrammarFacts.InsertForm` |
| GrammarFacts.InsertFormAccepted | parser/parser.go:324-404 | every stream of that form is accepted |
| GrammarFacts.InsertExact | parser/parser.go:324-404 | validateInsertTokens is true exactly for a KEYWORD (or INTO), a table, `(` a column list closed by `)`, a KEYWORD (or VALUES), `(` and a value list closed by the last token or open to the end; empty lists and trailing commas included |
| GrammarFacts.AssignmentsExact | parser/parser.go:415-442 | the SET loop stops at a position exactly when a run of assignments (IDENTIFIER, a token that is no OPERATOR other than `=`, LITERAL) separated by `,` ends there, at a token that is not `,`, or at the end right after a `,` |
| GrammarFacts.UpdateExact | parser/parser.go:406-485 | validateUpdateTokens is true exactly for a table name, then SET and a run of assignments or no SET at all, then an optional WHERE clause to the end |
| GrammarFacts.DeleteExact | parser/parser.go:487-543 | validateDeleteTokens is true exactly for a KEYWORD (or FROM), a table name, then an optional WHERE clause to the end |
| GrammarExamples.SimpleSelectExample | parser/parser_test.go:28-42 | `SELECT id FROM users` validates, and parses to column id and table users |
| GrammarExamples.SemicolonExample | parser/parser_test.go:44-59 | one trailing `;` validates; a second does not |
| GrammarExamples.MultiColumnExample | parser/parser_test.go:61-79 | `SELECT id, name, age FROM users` validates and collects the three columns in order |
| GrammarExamples.WildcardExample | parser/parser.go:53-57 | `SELECT * FROM users` has the column `*` |
| GrammarExamples.WildcardAfterColumnExample | parser/parser.go:53-57 | `SELECT id * FROM users` has columns id and `*` |
| GrammarExamples.DanglingCommaExample | parser/parser.go:59-61 | `SELECT id, FROM users` is "expected IDENTIFIER", and the validator says false |
| GrammarExamples.FromExamples | parser/parser.go:85-93 | without FROM the table is empty; stopping after the columns panics; a non-identifier table is "expected Table Name" |
| GrammarExamples.ConjunctionExample | parser/parser_test.go:101-123 | the AND query validates; the recogniser keeps the last operator and literal; parseSelect as written panics on it |
| GrammarExamples.TrailingConnectiveExample | parser/parser.go:307-317 | a connective at the end of the stream is accepted |
| GrammarExamples.BareWhereExample | parser/parser.go:285-288 | a bare WHERE is accepted |
| GrammarExamples.ShortConditionPanics | parser/parser.go:293-301 | a condition cut short after its operator reads past the end |
| GrammarExamples.LessThanCompares | parser/parser.go:295 | any OPERATOR passes the "=" check |
| GrammarExamples.ConnectiveCompares | parser/parser.go:295 | AND passes the "=" check |
| GrammarExamples.OtherStatementsExample | parser/parser.go:21-38 | Parse gives no node for INSERT, "expected KEYWORD" for a literal, and panics on no tokens |
| GrammarExamples.InsertExample | parser/parser_test.go:149-177 | the INSERT stream of the test validates |
| GrammarExamples.LooseInsertExamples | parser/parser.go:339-404 | an unclosed VALUES list, empty lists and trailing commas are accepted; a stream that ends in the column list panics |
| GrammarExamples.UpdateExample | parser/parser_test.go:179-199 | the UPDATE stream of the test validates |
| GrammarExamples.UpdateWithoutWherePanics | parser/parser.go:406-442 | an UPDATE whose last assignment ends the stream panics, and so does one stopped after the table |
| GrammarExamples.UpdateWithoutSetExample | parser/parser.go:413-444 | SET is optional: `UPDATE users WHERE id = 1` validates, and so do a bare SET and a trailing `,` after the last assignment |
| GrammarExamples.UpdateInvertedCheck | parser/parser.go:424 | the assignment check rejects only an OPERATOR other than `=` |
| GrammarExamples.DeleteExample | parser/parser.go:487-543 | `DELETE FROM users WHERE id = 1` and `DELETE FROM users` validate; `DELETE FROM` panics |
| GrammarExamples.KeywordOrValueChecks | parser/parser.go:490 | any KEYWORD, or any token reading FROM, stands for FROM |
| Parser.Parser.constructor | parser/parser.go:15-19 | NewParser holds the given tokens |
| Parser.Parser.Parse | parser/parser.go:21-38 | computes `Grammar.ParseSpec` of the parser's tokens |
| Parser.Parser.ParseSelect | parser/parser.go:40-115 | computes `Grammar.SelectSpec` |
| Parser.Parser.ScanColumns | parser/parser.go:51-83 | the column loop computes `Grammar.ColumnList` |
| Parser.Parser.ScanWhere | parser/parser.go:154-201 | the WHERE loop (parseWhere as a recogniser, validateWhereTokens, and the copies in the UPDATE and DELETE validators) computes `Grammar.WhereCursor` |
| Parser.Parser.ValidateTokens | parser/parser.go:203-218 | computes `Grammar.ValidateSpec` |
| Parser.Parser.ValidateSelectTokens | parser/parser.go:220-282 | computes the verdict of `Grammar.SelectCursor` |
| Parser.Parser.ScanParenList | parser/parser.go:339-363 | each INSERT list loop computes `Grammar.ParenList` |
| Parser.Parser.ValidateInsertTokens | parser/parser.go:324-404 | computes the verdict of `Grammar.InsertCursor`, which is true exactly for the streams of `GrammarFacts.InsertForm` |
| Parser.Parser.ScanAssignments | parser/parser.go:415-442 | the SET loop computes `Grammar.Assignments`, and where it stops a run of assignments ends |
| Parser.Parser.ValidateUpdateTokens | parser/parser.go:406-485 | computes the verdict of `Grammar.UpdateCursor`, which is true exactly for a table name, an optional SET part and an optional WHERE clause to the end (`GrammarFacts.UpdateForm`) |
| Parser.Parser.ValidateDeleteTokens | parser/parser.go:487-543 | computes the verdict of `Grammar.DeleteCursor`, which is true exactly for the streams of `GrammarFacts.DeleteForm` |
| Engine.SchemaManager.constructor | engine/schema_manager.go:9-13 | a new manager holds no tables |
| Engine.SchemaManager.AddTable | engine/schema_manager.go:15-17 | afterwards GetTable(name) returns the table (an earlier one is replaced), and every other name is unchanged |
| Engine.SchemaManager.GetTable | engine/schema_manager.go:19-26 | the bound table, or "table not found" exactly when the name is absent |
| Engine.SchemaManager.IsTableExists | engine/schema_manager.go:28-31 | true exactly when GetTable succeeds |
| Engine.CatalogueExample | engine/schema_manager.go:9-31 | an added table exists, and one never added does not |
| SemanticAnalyzer.ContainsColumn | parser/semantic_analyzer.go:28-35 | true exactly when some column has the name |
| SemanticAnalyzer.FirstUnknown | parser/semantic_analyzer.go:14-18 | the loop finds the first selected name that is not a column, or none when every name is one |
| SemanticAnalyzer.Analyze | parser/semantic_analyzer.go:8-26 | "table not found in schema " when the table is absent; otherwise success exactly when every selected name is a column name, else "column not found in table "; it never panics |
| SemanticAnalyzer.IgnoresWhere | parser/semantic_analyzer.go:20-23 | the WHERE clause never changes the result |
| SemanticAnalyzer.WildcardIsAName | parser/semantic_analyzer.go:14-18 | `*` passes only if the table has a column named `*` |
| SemanticAnalyzer.NoColumnsPass | parser/semantic_analyzer.go:14-18 | an empty column list passes |
| SemanticAnalyzer.AnalyzeUsersExample | parser/semantic_analyzer_test.go:8-29 | `id, name` from `users (id, name)` passes |
| QueryOptimizer.ColumnNames | parser/query_optimizer.go:21-23 | the table's column names, in declared order |
| QueryOptimizer.Optimized | parser/query_optimizer.go:13-27 | the lookup error is passed on unchanged; an empty column list panics; a leading `*` becomes exactly the table's column names; otherwise the statement is unchanged; table and WHERE clause are never changed |
| QueryOptimizer.SelectQueryOptimizer.Optimize | parser/query_optimizer.go:13-27 | the append loop computes `Optimized` over the catalogue's lookup |
| QueryOptimizer.OptimizeIdempotent | parser/query_optimizer.go:19-24 | a second pass changes nothing when the table has a column and the first is not itself named `*` |
| QueryOptimizer.ZeroColumnsSecondPassPanics | parser/query_optimizer.go:19-24 | with a zero-column table, `*` expands to nothing and the next pass indexes an empty list |
| QueryOptimizer.OptimizeUsersExample | parser/query_optimizer_test.go:30-38 | `*` over `users (id, name)` becomes `id, name` |
| Pipeline.SimpleQueryPipeline | api/cli.go:47-65 | `SELECT id FROM users` tokenizes to the test's tokens, which validate and parse to column id of table users |
| Pipeline.WildcardQueryPipeline | api/cli.go:62-74 | with a `users (id, name)` table, `SELECT * FROM users` parses, but analysis (which runs first) rejects `*` as an unknown column; once expanded to `id, name` it would pass |

## Left out

- api/cli.go is modelled only as the order in which `ExecuteQuery`
  (api/cli.go:47-83) calls the stages, in the Pipeline lemmas. Its stdin
  loop, its printing and `SetToken` are not modelled. The analyser it
  calls, `SelectSemanticAnalyzer.Analyze`, is not defined in the
  repository's files; the model takes it to be `SelectStatement.Analyze`
  of parser/semantic_analyzer.go with the shared catalogue.
- storage/storage.go is not modelled: it opens, reads and writes files
  through `os`.
- engine/schema.go is not modelled. It loads the catalogue from
  `storage/schema.json` and redeclares `SchemaManager`. The in-memory
  version of engine/schema_manager.go is modelled instead.
- The validators' `TokenValidatorParam` argument is not modelled:
  ValidateTokens always passes cursor 0. The methods start from the cursor
  the Go code reaches.
- Parser.Parser.ParseSelect reads the parser's own tokens. The Go
  parameter `tokens` is read only at parser/parser.go:43, and Parse passes
  `p.Tokens` for it.
- Parser.Parser.ScanWhere stands for the three WHERE loops of the
  validators and for parseWhere. They are copies of one loop, and the
  validators use its verdict only.
- Grammar.SelectSpec stores the recogniser's clause as `Some(root)`. The Go
  line `node.WhereClause = whereClause` (parser/parser.go:96) assigns a
  `WhereClause` value to a `*WhereClause` field and does not compile as
  written.
- parseSelect returns a partially filled node next to its error. Parse
  drops it, so the model returns the error alone.
- Tree construction inside parseWhere (parser/parser.go:160-183) is modelled
  only up to the nil dereference (Grammar.WhereCursorAsWritten).
- The three tokenizer tests with the long quoted literal
  `marty.mcfly@thefuture.com` are not proved
  (parser/lexer_test.go:248-312, 336-375). A literal of that length is
  too costly for the solver as one step. The other tokenizer tests are
  proved in LexerExamples.
- QueryOptimizer.SelectQueryOptimizer.Optimize returns the updated
  statement rather than writing `selectStmt.Columns` through a pointer.
  Aliasing of the statement is not modelled.
- A nil `*Table` stored by AddTable is not modelled: tables are values.
- Go's `nil` token slice for an input with no tokens is the empty sequence.
- Strings are sequences of bytes (`CharUtil.Byte`, one character per byte);
  there is no UTF-8 decoding, which the Go code does not do either.

## Findings

| source | as written | input that shows it | evidently intended | confidence | as-written member | corrected member |
|---|---|---|---|---|---|---|
| parser/parser.go:167-168 | `if currentClause == nil { currentClause.Right = newClause }` writes through the nil pointer that it has just checked | the tokens of `SELECT id FROM users WHERE name = "marty" AND age = 18` (parser_test.go:101-123): parseSelect panics, while validateSelectTokens returns true | the recogniser shared with validateWhereTokens, never dereferencing nil, so that parsing and validation agree | not executed | Grammar.WhereCursorAsWritten, Grammar.SelectAsWritten, GrammarFacts.WhereAsWrittenPanics, GrammarExamples.ConjunctionExample | Grammar.WhereCursor, Grammar.SelectSpec, GrammarFacts.SelectValidatorAgrees, GrammarFacts.ConditionsExact |
