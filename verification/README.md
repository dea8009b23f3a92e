# script-language in Dafny

A model of the interpreter for a small scripting language (Ajhaa/script-language)
and of its acceptance harness. The interpreter is written in Rust and the harness in Python.
The model follows the program's own pipeline:

- **Lexer** (`Scanner`, `ScannerProperties`). Characters become token types. Words and
  numbers are maximal runs. `= < > ! & |` look one character ahead. Words found in the
  keyword table become keyword tokens.
- **Parser** (`Parser`, `ParserErrors`, `Ast`, `ParserProperties`, `StatementProperties`).
  A recursive-descent parser over `Token(type, line)`:
  - statements: `var`, assignment, `if`/`else`, `while`, `fn`, `return` and blocks;
  - three right-recursive binary levels;
  - chains of call, index and field-access postfixes.

  The parser's token-stream helpers are not shown in the source. Their behaviour is
  inferred from how the parser uses them and is written down in `parser.dfy`.
- **Environment** (`Environment`). Scopes linked to their parents through `Rc`. Here every scope is
  a frame in one sequence, and a parent is a smaller index. The innermost-first scope
  stack `Scopes(env)` is the reference against which `get`, `put`, `put_new`, `enter` and
  `exit` are stated.
- **Evaluator** (`Values`, `Objects`, `InterpreterErrors`, `Interpreter`,
  `InterpreterProperties`):
  - the statement and expression visitors and `Function::call`;
  - the `assign` methods and the `Object`, `List` and `map` builtins.

  The interpreter's world is a `State`: the frames, a heap of objects and a heap of lists.
  Objects, lists and closures are referred to by index, as the source shares them
  through `Rc`. Evaluation ends in one of:
  - a value and the next state;
  - a script error (`Raised`);
  - a source panic (`Halted`);
  - running out of fuel (`OutOfFuel`).

  One unit of fuel is spent per loop iteration and per call, which makes every function total.
- **Harness** (`Harness`). `test.py`'s `run_and_compare`, its table of four tests and the
  tally. The script's standard output is the parameter `run`.

The main results:
- scanning the printed form of any printable token sequence gives it back (`ScanRender`);
- parsing the printed form of any well-formed program gives it back (`ParseRoundTrip`);
- the binary levels nest by precedence and associate to the right;
- the environment operations agree with the scope-stack reference definitions;
- every evaluation step keeps the heap-and-scope invariant `StateOk`, and keeps the
  caller's current scope;
- each control-flow case, each builtin, the binary operators, calls with their argument
  evaluation, and the error cases of reading, indexing, calling and assigning have lemmas of their own;
- `RunAll` tallies exactly what the reference count says, and all four tests pass when
  each script prints its expected lines.

Where the model departs from the source (a panic becomes a `Halted` fault, numbers are
integers), the departure is listed under "Left out".

## Model

| member | source | states |
|---|---|---|
| Scanner.NextToken | src/scanner.rs:66-101 | An empty input is an error (the source's `unwrap` on no character). On success what is left is strictly shorter than the input. |
| Scanner.Scan | src/scanner.rs:54-64 | An empty input is the error `EmptyInput`, because a character is taken before the end is checked. A successful scan yields at most one token per input character. |
| Scanner.KeywordTable | src/scanner.rs:21-31 | The keyword table of `Scanner::new` holds exactly `var if else fn while true false null return`. Each is a word the scanner reads whole, and none maps to an identifier. |
| Scanner.MatchOr | src/scanner.rs:43-52 | `match_or` consumes at most the one lookahead character, and does so exactly when it is `should`. It produces `result` when it consumed the character and `default` otherwise. |
| Scanner.StringToken | src/scanner.rs:103-115 | The text is the input up to the first `"` and holds no `"`. The quote is consumed. Without a quote the text is the whole rest of the input and nothing is left. |
| Scanner.Word | src/scanner.rs:117-132 | The lexeme is `first` with the maximal run of word characters after it, and the input left starts with a non-word character. The token is the keyword table's entry for the lexeme, or an identifier when the table has none. |
| Scanner.NumberToken | src/scanner.rs:134-145 | The lexeme is `first` with the maximal run of digits after it, and the input left starts with a non-digit. The token is the lexeme's decimal value. |
| ScannerProperties.LookaheadOperators | src/scanner.rs:43-52 | For `= < > ! & |`: when the next character is the second character (`=`, or the same `&`/`|`), the result is the two-character token and both characters are consumed. Otherwise the result is the one-character token and the next character stays in the input. |
| ScannerProperties.WhitespaceIsSkipped | src/scanner.rs:92-100 | Space, `\r` and `\n` produce no token and are consumed. |
| ScannerProperties.ScanSkipsWhitespace | src/scanner.rs:54-64 | A whitespace character in front of a non-empty input does not change the scan result. |
| ScannerProperties.WordIsMaximalRun | src/scanner.rs:117-132 | A token starting with a letter or `_` spans exactly the maximal run of letters, digits and `_`. Every character of the run is such a character and the next is not. The token is the keyword table's entry for the run when there is one, else `Identifier(run)`. |
| ScannerProperties.NumberIsMaximalRun | src/scanner.rs:134-145 | A token starting with a digit spans exactly the maximal run of digits, and carries the decimal value of that run. |
| ScannerProperties.StringRunsToQuote | src/scanner.rs:103-115 | After `"`, the string holds exactly the characters before the next `"`, which is consumed. Without a closing quote it takes the rest of the input. |
| ScannerProperties.UnknownCharacterIsError | src/scanner.rs:89-93 | `next_token` fails exactly on an empty input or on a first character outside the recognised set. For such a character the error is `UnexpectedCharacter(c)`. |
| ScannerProperties.WordLexeme | src/scanner.rs:117-132 | A word followed by a space is read as one token (keyword or identifier) and leaves the space. |
| ScannerProperties.KeywordLexeme | src/scanner.rs:21-31 | A word in the keyword table (`var if else fn while true false null return`) is read as that table's token. |
| ScannerProperties.LexemeScansBack | src/scanner.rs:66-145 | The printed text of every printable token, followed by a space, is read back as that token and leaves the space. |
| ScannerProperties.ScanRender | src/scanner.rs:54-64 | Scanning the space-separated printed form of any non-empty sequence of printable tokens gives the sequence back. |
| ParserErrors.Unexpected | src/parser/errors.rs:18-23 | The error holds the token found and `Unexpected(should_be)`. |
| Tokens.EscapeChar | src/parser/errors.rs:48 | `escape_debug` of one character starts with a backslash exactly when the character has a short escape or is an ASCII control character. |
| Tokens.EscapeDebug | src/parser/errors.rs:48 | The escaped text is at least as long as the input, and equal to it when no character needs escaping. |
| Tokens.UnescapeChar | src/parser/errors.rs:48 | One escaped character, followed by anything, reads back as that character. |
| Tokens.EscapeRoundTrip | src/parser/errors.rs:48 | The text `{:?}` writes inside a string's quotes reads back as the string. |
| Tokens.Debug | src/parser/errors.rs:28 | The derived `{:?}` text of a token type is never empty. `DebugReadsBack` states what it writes for a token with a payload. |
| Tokens.DebugReadsBack | src/parser/errors.rs:48 | In the `{:?}` text of an identifier or string token, the part between `("` and `")` unescapes to the name or text. In that of a number token, the part between `Number(` and `.0)` holds the number's decimal digits, with a `-` when negative. |
| ParserErrors.UnexpectedToken | src/parser/errors.rs:25-30 | The error holds the token found and `Unexpected` of the expected type's `Debug` name. |
| ParserErrors.Eof | src/parser/errors.rs:32-37 | The error has no token and type `EOF`. |
| ParserErrors.Display | src/parser/errors.rs:40-57 | `EOF` displays as "Reached end of line while parsing". `Unexpected` without a token displays as "Expected X, reached EOF". |
| ParserErrors.DisplayShowsLine | src/parser/errors.rs:46-54 | `Unexpected` with a token displays as "Line N: expected X, found T", where N is the token's line in decimal digits that read back to the line number. |
| ParserErrors.DisplayFirstCharacter | src/parser/errors.rs:40-57 | The three message shapes are told apart by their first character: `R` exactly for EOF, `L` exactly with a token, `E` exactly without one. |
| Parser.ShouldBe | src/parser/mod.rs:72 | `should_be(ty)` succeeds exactly on a present token of type `ty`, and then returns that token. With no token it is the EOF error; with a token of another type it is `unexpected_token`. |
| Parser.CurrentType | src/parser/mod.rs:85 | `current().unwrap_type()` is present exactly when tokens remain, and is then the first token's type. |
| Parser.Current | src/parser/mod.rs:42-44 | `current` is present exactly when tokens remain. It is then the first token, whose type is `CurrentType`'s. |
| Parser.Rest | src/parser/mod.rs:50-56 | After `advance` or `consume` the stream is the old one without its first token. An empty stream stays empty. |
| Parser.Parse | src/parser/mod.rs:31-40 | No tokens is the EOF error. A successful parse has at least one statement. |
| Parser.Statement | src/parser/mod.rs:62-176 | No tokens is the EOF error. A parsed statement consumes at least one token. |
| Parser.DeclarationStatement | src/parser/mod.rs:66-82 | On success at least one token is consumed; the parse results are stated by `StatementProperties.DeclarationRoundTrip` and `ParserProperties.DeclarationNeedsName`. |
| Parser.IdentifierStatement | src/parser/mod.rs:83-97 | On success at least one token is consumed; see `StatementProperties.AssignmentRoundTrip` and `ExprStmtRoundTrip`. |
| Parser.IfStatement | src/parser/mod.rs:98-115 | On success at least one token is consumed; see `StatementProperties.IfRoundTrip`. |
| Parser.WhileStatement | src/parser/mod.rs:116-122 | On success at least one token is consumed; see `StatementProperties.WhileRoundTrip`. |
| Parser.FunctionStatement | src/parser/mod.rs:123-150 | On success at least one token is consumed; see `StatementProperties.FunctionRoundTrip` and `ParserProperties.FunctionNeedsName`. |
| Parser.ReturnStatement | src/parser/mod.rs:151-155 | On success at least one token is consumed; see `StatementProperties.ReturnRoundTrip`. |
| Parser.BlockStatement | src/parser/mod.rs:156-169 | On success at least one token is consumed; see `StatementProperties.BlockStmtRoundTrip` and `UnclosedBlock`. |
| Parser.ExpressionStatement | src/parser/mod.rs:170-172 | On success at least one token is consumed; see `StatementProperties.ExprStmtRoundTrip`. |
| Parser.BlockBody | src/parser/mod.rs:158-166 | The statements up to `}` or the end of the input never leave more tokens than they were given. |
| Parser.ParamList | src/parser/mod.rs:130-138 | The parameter loop never leaves more tokens than it was given; see `StatementProperties.ParamsRoundTrip`. |
| Parser.Expression | src/parser/mod.rs:178-180 | On success at least one token is consumed. |
| Parser.Condition | src/parser/mod.rs:182-210 | On success at least one token is consumed. |
| Parser.Addition | src/parser/mod.rs:212-235 | On success at least one token is consumed. |
| Parser.Multiplication | src/parser/mod.rs:237-260 | On success at least one token is consumed. |
| Parser.Factor | src/parser/mod.rs:262-287 | No tokens is the EOF error. On success at least one token is consumed. |
| Parser.CallAndAccess | src/parser/mod.rs:289-347 | The postfix chain never leaves a postfix opener (`(`, `[` or `.`) as the next token. |
| Parser.CallPart | src/parser/mod.rs:290-312 | When it consumes nothing, it returns the base unchanged and the next token is not `(`. When it reads a call postfix, the chain after it leaves no opener next. |
| Parser.IndexPart | src/parser/mod.rs:314-326 | When it consumes nothing, it returns the base unchanged and the next token is not `[`. When it reads an index postfix, the chain after it leaves no opener next. |
| Parser.AccessPart | src/parser/mod.rs:328-346 | When it consumes nothing, it returns the base unchanged and the next token is not `.`. When it reads an access postfix, the chain after it leaves no opener next. |
| Parser.ArgList | src/parser/mod.rs:292-306 | The argument loop never leaves more tokens than it was given; see `ParserProperties.ArgsRoundTrip`. |
| ParserProperties.PrintStart | src/parser/mod.rs:262-284 | Every printed expression starts with a token `factor` accepts. |
| ParserProperties.NoPostfix | src/parser/mod.rs:289-347 | With no postfix opener next, `call_and_access` returns its base and the tokens unchanged. |
| ParserProperties.CallPostfix | src/parser/mod.rs:290-312 | A printed call postfix is read as a call of the base with the printed arguments. |
| ParserProperties.IndexPostfix | src/parser/mod.rs:314-326 | A printed index postfix is read as an index of the base. |
| ParserProperties.AccessPostfix | src/parser/mod.rs:328-338 | `. name` is read as an access of field `name` of the base. |
| ParserProperties.FactorRoundTrip | src/parser/mod.rs:262-287 | `factor` reads a printed well-formed expression's head back and passes it to `call_and_access`. |
| ParserProperties.BinaryRoundTrip | src/parser/mod.rs:277-281 | `factor` reads a binary node, printed inside parentheses, back as itself and passes it to `call_and_access`. |
| ParserProperties.ExpressionRoundTrip | src/parser/mod.rs:178-260 | Every well-formed expression printed as tokens, followed by a token that ends an expression, parses back to itself at all three levels, and the rest is left. |
| ParserProperties.ArgsRoundTrip | src/parser/mod.rs:292-306 | A printed argument list, followed by `)`, reads back to the same arguments and leaves the `)`. |
| ParserProperties.FactorThen | src/parser/mod.rs:286 | A printed factor followed by a non-opener is read on its own. |
| ParserProperties.MultiplicationStops | src/parser/mod.rs:237-247 | A factor not followed by `*` or `/` is the whole multiplication. |
| ParserProperties.MultiplicationContinues | src/parser/mod.rs:249-256 | A factor, `*` or `/`, then a multiplication, is one node with the right part nested. |
| ParserProperties.AdditionStops | src/parser/mod.rs:212-222 | A multiplication not followed by `+` or `-` is the whole addition. |
| ParserProperties.AdditionContinues | src/parser/mod.rs:224-231 | A multiplication, `+` or `-`, then an addition, is one node with the right part nested. |
| ParserProperties.ConditionStops | src/parser/mod.rs:182-196 | An addition not followed by a comparison is the whole expression. |
| ParserProperties.ConditionContinues | src/parser/mod.rs:199-206 | An addition, a comparison, then a condition, is one node with the right part nested. |
| ParserProperties.AdditionGroupsRight | src/parser/mod.rs:224-231 | `a - b - c` parses as `a - (b - c)`. |
| ParserProperties.MultiplicationGroupsRight | src/parser/mod.rs:249-256 | `a * b * c` parses as `a * (b * c)`. |
| ParserProperties.ConditionGroupsRight | src/parser/mod.rs:199-205 | `a < b < c` parses as `a < (b < c)`. |
| ParserProperties.MultiplicationBindsTighterRight | src/parser/mod.rs:212-213 | `a + b * c` parses as `a + (b * c)`. |
| ParserProperties.MultiplicationBindsTighterLeft | src/parser/mod.rs:237-238 | `a * b + c` parses as `(a * b) + c`. |
| ParserProperties.ComparisonBindsLoosest | src/parser/mod.rs:178-183 | `a + b < c` parses as `(a + b) < c`. |
| ParserProperties.FactorRejects | src/parser/mod.rs:283 | A token that cannot start a factor fails with `Unexpected(token, "factor")`. |
| ParserProperties.ParenthesisMustClose | src/parser/mod.rs:277-280 | A parenthesised expression not closed by `)` fails with the `should_be(RightParen)` error on what follows. |
| ParserProperties.AccessNeedsName | src/parser/mod.rs:328-343 | After `.`, the end of input is the EOF error and a non-identifier is `Unexpected(token, "object")`. |
| ParserProperties.DeclarationNeedsName | src/parser/mod.rs:66-80 | `var` at the end is the EOF error. `var` followed by a non-identifier is `Unexpected("identifier")` on the `var` token. |
| ParserProperties.FunctionNeedsName | src/parser/mod.rs:123-149 | `fn` not followed by an identifier is `Unexpected("identifier")` on the `fn` token. |
| StatementProperties.StmtStart | src/parser/mod.rs:65-172 | A printed well-formed statement starts with a token `statement` dispatches on. |
| StatementProperties.ParamsRoundTrip | src/parser/mod.rs:130-139 | A printed parameter list followed by `)` reads back to the same names and leaves the `)`. |
| StatementProperties.StatementRoundTrip | src/parser/mod.rs:62-176 | Every well-formed statement printed as tokens, followed by tokens that cannot extend it, parses back to itself. |
| StatementProperties.DeclarationRoundTrip | src/parser/mod.rs:66-78 | A well-formed declaration (one name and an initializer, the only form the parser builds) printed as `var x = e` reads back as itself. |
| StatementProperties.AssignmentRoundTrip | src/parser/mod.rs:83-92 | `target = value` reads back as an assignment. |
| StatementProperties.IfRoundTrip | src/parser/mod.rs:98-115 | `if c body` reads back with no else, and `if c body else other` with the else attached to this `if`. |
| StatementProperties.IfElseParts | src/parser/mod.rs:101-105 | The then-branch is read up to the `else`, which is then consumed before the else-branch. |
| StatementProperties.WhileRoundTrip | src/parser/mod.rs:116-122 | `while c body` reads back as itself. |
| StatementProperties.FunctionRoundTrip | src/parser/mod.rs:123-146 | `fn name(params) body` reads back as itself. |
| StatementProperties.ReturnRoundTrip | src/parser/mod.rs:151-155 | `return e` reads back as itself. |
| StatementProperties.ExprStmtRoundTrip | src/parser/mod.rs:170-172 | An expression statement reads back as itself. |
| StatementProperties.BlockStmtRoundTrip | src/parser/mod.rs:156-169 | `{ statements }` reads back as a block of those statements. |
| StatementProperties.BlockRoundTrip | src/parser/mod.rs:158-166 | A block body reads its statements up to and including `}`, or up to the end of the input. |
| StatementProperties.UnclosedBlock | src/parser/mod.rs:159 | A block whose `}` is missing ends with the input, and is not an error. |
| StatementProperties.ParseRoundTrip | src/parser/mod.rs:31-40 | A non-empty program of well-formed statements printed as tokens parses back to itself. |
| Environment.LookupScopes | src/environment.rs:36-49 | Reference lookup on the scope stack: a value exactly when some scope defines the key. |
| Environment.PutScopes | src/environment.rs:15-30 | Reference assignment: it succeeds exactly when some scope defines the key, and then overwrites the key in the first such scope only. |
| Environment.New | src/environment.rs:58-62 | One empty scope. |
| Environment.Lookup | src/environment.rs:36-49 | A value found walking from a frame to the root is a value some frame binds to the key. |
| Environment.LookupMatchesScopes | src/environment.rs:36-49 | Walking the parent chain gives the reference lookup on the scope stack. |
| Environment.Get | src/environment.rs:92-95 | `get` is the value from the nearest scope that defines the key, and `None` when no scope does. |
| Environment.Update | src/environment.rs:15-30 | `Env::put` succeeds exactly when the walk finds the key. It changes no parent, no frame above the start, and no binding except to the new value. |
| Environment.UpdateMatchesScopes | src/environment.rs:15-30 | Assigning along the parent chain gives the reference assignment on the scope stack. |
| Environment.Put | src/environment.rs:82-85 | `put` succeeds exactly when some scope defines the key (the source panics otherwise). The new scope stack is the reference assignment's, and the current scope is kept. |
| Environment.PutNew | src/environment.rs:87-90 | `put_new` binds the key in the innermost scope only, and leaves every outer scope as it was. |
| Environment.Enter | src/environment.rs:64-68 | `enter` pushes one empty scope whose parent is the old current scope. |
| Environment.Exit | src/environment.rs:70-80 | `exit` succeeds exactly when there is an outer scope (the source panics otherwise). It pops the innermost scope and makes the parent current. |
| Environment.CreateInternalFunction | src/environment.rs:102-114 | `create_internal_function` binds the name in the current scope, as `put_new` does, to a native function closed over the current scope. |
| Environment.GetAfterPutNew | src/environment.rs:32-34 | A `get` after `put_new` of the same key returns the new value. |
| Environment.PutNewKeepsOthers | src/environment.rs:32-34 | `put_new` leaves every other key's `get` unchanged. |
| Environment.GetAfterPut | src/environment.rs:15-25 | A `get` after a successful `put` of the same key returns the new value. |
| Environment.PutUndefinedFails | src/environment.rs:26 | `put` of a key no scope defines fails. |
| Environment.EnterKeepsGets | src/environment.rs:64-68 | `enter` changes no `get` result. |
| Environment.ExitAfterEnter | src/environment.rs:64-80 | `exit` after `enter` succeeds and restores the current scope and the scope stack. |
| Environment.ExitOfRootFails | src/environment.rs:78 | `exit` of the root scope fails. |
| Objects.New | src/object.rs:13-19 | A new object has no fields. |
| Objects.Set | src/object.rs:21-23 | `set` makes the key hold the value and leaves every other key's presence and value unchanged. |
| Objects.Get | src/object.rs:25-30 | `get` is present exactly for a key the object has, with that key's value. |
| Objects.GetAfterSet | src/object.rs:21-30 | `get(k)` after `set(k, v)` returns `v`. |
| Objects.SetOverwrites | src/object.rs:21-23 | A later `set` of the same key overwrites the earlier one. |
| Objects.SetKeepsOthers | src/object.rs:21-30 | `set(k, v)` leaves every other key's `get` unchanged. |
| Objects.NewHasNoFields | src/object.rs:13-30 | `get` of any key on a new object is `None`. |
| InterpreterErrors.New | src/interpreter/errors.rs:21-26 | `new(t, k)` stores `t` and `k` unchanged. |
| InterpreterErrors.OtherError | src/interpreter/errors.rs:28-30 | `other(t, m)` has target `t` and type `Other(m)`. |
| InterpreterErrors.Display | src/interpreter/errors.rs:34-47 | `UndefinedVariable(x)` displays as "Variable not found: x". Every other kind displays as its label (`m` for `Other(m)`), then ": ", then the target's display. Such a message exists exactly when the target has a display. |
| InterpreterErrors.MessageDeterminesKind | src/interpreter/errors.rs:34-47 | Except for `Other`, two errors with the same message have the same kind, and the same name for an undefined variable. |
| InterpreterErrors.MessageShape | src/interpreter/errors.rs:37-42 | The fixed kinds' messages differ in their first or fifth character. |
| Values.ToIndex | src/interpreter/mod.rs:187 | `n as usize`: a non-negative integer is kept and a negative one becomes 0. |
| Values.Numeric | src/expression.rs:41-56 | `numeric` succeeds exactly on two numbers with `+ - * /`, where a division also needs a non-zero divisor that divides evenly (see "Left out"). Its result is a number. Operands that are not both numbers give the "Cannot" panic, and another operator on numbers gives "Impossible addition". |
| Values.Compare | src/expression.rs:58-78 | `boolean` succeeds exactly on two numbers with one of the six comparisons, or on two booleans with `==`/`!=`. Its result is a boolean, and `==`/`!=` answer whether the operands are equal. Operands that are neither two numbers nor two booleans give the "Cannot compare" panic. |
| Values.Display | src/expression.rs:87-100 | `None` shows "null", `Unit` "()", a function "Func", a boolean "true"/"false" and a string its text. There is a text exactly for values that are neither objects nor lists. |
| Values.SubtractionUndoesAddition | src/expression.rs:45-46 | `(a + b) - b` is `a`. |
| Values.DivisionUndoesMultiplication | src/expression.rs:47-48 | `(a * b) / b` is `a` for non-zero `b`. |
| Values.NotEqualsNegatesEquals | src/expression.rs:60-73 | `==` and `!=` succeed on the same operands with opposite answers. |
| Values.OrderingsComplement | src/expression.rs:63-66 | On numbers `<` is the negation of `>=` and `>` of `<=`, and `a < b` is `b > a`. |
| Values.NumberDisplayReadsBack | src/expression.rs:90 | A number displays as its decimal digits, with `-` when negative, and the digits read back to the number. |
| Interpreter.Declare | src/interpreter/mod.rs:45 | `put_new` on the state keeps the invariant, the heaps and the current scope. |
| Interpreter.DeclareAll | src/interpreter/mod.rs:44-46 | Declaring every name keeps the invariant and the heaps. |
| Interpreter.BindIn | src/function.rs:39 | Binding a parameter in frame `frame` adds or overwrites exactly that name there, keeps the invariant and the heaps, and changes no other frame. |
| Interpreter.EnterScope | src/environment.rs:64-68 | `enter` on the state keeps the invariant and the heaps. |
| Interpreter.LeaveScope | src/interpreter/mod.rs:58-63 | The `exit` after a scope entered from `outer` cannot fail, and makes `outer`'s current scope current again. |
| Interpreter.AllocObject | src/object.rs:13-19 | A new object is appended to the heap without fields, and nothing else changes. |
| Interpreter.AllocList | src/builtin.rs:24-26 | A new list is appended to the heap with the given elements, and nothing else changes. |
| Interpreter.SetField | src/expression.rs:179-187 | Field `f` of object `id` is set. No other object, no list and no scope changes. |
| Interpreter.SetElement | src/expression.rs:201-215 | Position `k` of list `id` is written. No other list, no object and no scope changes. |
| Interpreter.LiteralValue | src/parser/mod.rs:266-271 | A literal is a number, string, boolean or `None` value, never a reference. |
| Interpreter.Eval | src/interpreter/mod.rs:119-194 | Every successful evaluation keeps `StateOk`, keeps the current scope, only grows the heaps, and returns a value whose references exist. |
| Interpreter.EvalBinary | src/interpreter/mod.rs:120-148 | As for `Eval`, for the binary visitors; their result is stated by `BinaryOperands`. |
| Interpreter.EvalCall | src/interpreter/mod.rs:150-166 | As for `Eval`: after a successful call the caller's scope is current again. The result is stated by `CallEvaluatesArguments` and `CallArgumentsFail`. |
| Interpreter.EvalAccess | src/interpreter/mod.rs:168-178 | As for `Eval`, for field access. |
| Interpreter.EvalIndex | src/interpreter/mod.rs:180-194 | As for `Eval`, for indexing. |
| Interpreter.CallFunction | src/function.rs:33-47 | A successful call keeps `StateOk` and the caller's current scope, and returns a valid value. |
| Interpreter.CallScope | src/function.rs:34-35 | The call's scope is one new frame, entered from the closure's scope. |
| Interpreter.BindParams | src/function.rs:36-40 | Binding fails whenever there are fewer arguments than parameters, and success keeps the invariant. What it binds is stated by `BindExpressions` and `BindValues`. |
| Interpreter.EvalArgs | src/function.rs:36-37 | Evaluating arguments gives one value per argument, each valid in the final state, and keeps the invariant and the current scope. |
| Interpreter.Bindings | src/function.rs:36-40 | The parameters bound are exactly the parameter names, each to one of the argument values. |
| Interpreter.BindAll | src/function.rs:36-40 | Frame `frame` gains exactly `Bindings(params, vs)`, overriding earlier bindings of those names. No other frame, no heap and not the current scope changes. |
| Interpreter.EvalArg | src/function.rs:37 | A value argument is returned as it is. An expression argument is evaluated with `Eval` in the caller's state: the result is exactly `Eval`'s. |
| Interpreter.Assign | src/expression.rs:12-14 | Only variables, fields and list elements can be assigned. Any other target is the `Cannot assign` panic. |
| Interpreter.AssignField | src/expression.rs:179-187 | A successful field assignment keeps the invariant and the current scope. |
| Interpreter.AssignElement | src/expression.rs:201-215 | A successful element assignment keeps the invariant and the current scope. |
| Interpreter.ExecStmt | src/interpreter/mod.rs:28-117 | Every successful statement keeps `StateOk` and the current scope, and completes with a valid value. |
| Interpreter.ExecDeclaration | src/interpreter/mod.rs:37-49 | A successful declaration completes with `Normal(Unit)`. |
| Interpreter.ExecAssignment | src/interpreter/mod.rs:29-35 | A successful assignment completes with `Normal(Unit)`. |
| Interpreter.ExecFunctionDecl | src/interpreter/mod.rs:68-79 | After `fn name`, `get(name)` is the closure: its parameters, its body, and the scope entered for it (whose parent is the current scope). |
| Interpreter.ExecBlock | src/interpreter/mod.rs:51-66 | A successful block, ended by a return or not, leaves the scope it entered: the current scope is the one before the block. |
| Interpreter.ExecIf | src/interpreter/mod.rs:81-89 | A successful `if` keeps the invariant and the current scope. |
| Interpreter.ExecWhile | src/interpreter/mod.rs:91-100 | A successful `while` keeps the invariant and the current scope. |
| Interpreter.ExecBody | src/interpreter/mod.rs:53-61 | A successful block body keeps the invariant and the current scope. |
| Interpreter.RunBuiltin | src/builtin.rs:13-55 | A successful builtin keeps the invariant and returns a valid value. |
| Interpreter.RunMap | src/builtin.rs:29-55 | A successful `map` returns the list it has just allocated. |
| Interpreter.MapElems | src/builtin.rs:42-49 | A successful mapping has one result per element, each valid in the final state. |
| Interpreter.Exec | src/interpreter/mod.rs:19-25 | A successful program keeps the invariant and the current scope. |
| Interpreter.DeclareBuiltin | src/environment.rs:102-114 | `create_internal_function` on the state is the environment's, and leaves the heaps alone. |
| Interpreter.Initial | src/builtin.rs:6-56 | The starting state is valid, with one scope and empty heaps. `Object`, `List(size)` and `map(func, list)` are bound there to their native functions. |
| InterpreterProperties.ExecAppend | src/interpreter/mod.rs:19-25 | Running two programs one after the other is running their concatenation; a failure in the first ends both. |
| InterpreterProperties.ExecStopsAtFirstError | src/interpreter/mod.rs:20-22 | `exec` runs statements in order and stops with the fault of the first statement that fails. |
| InterpreterProperties.TopLevelReturnIgnored | src/interpreter/mod.rs:21 | A top-level `return` does not stop the program. |
| InterpreterProperties.BodyAppend | src/interpreter/mod.rs:53-61 | A block body splits anywhere: the second part runs only when the first completed normally. |
| InterpreterProperties.BodyNormalIsUnit | src/interpreter/mod.rs:63-65 | A body that completes normally completes with `Normal(Unit)`. |
| InterpreterProperties.BlockStopsAtReturn | src/interpreter/mod.rs:51-66 | A block stops at the first `Return`, returns it, and has left its scope. |
| InterpreterProperties.BodyStartingWithReturn | src/interpreter/mod.rs:55-60 | A body whose first statement returns is that return. |
| InterpreterProperties.IfTrue | src/interpreter/mod.rs:82-83 | `if` runs the then-branch when the condition is `Boolean(true)`. |
| InterpreterProperties.IfOtherwise | src/interpreter/mod.rs:84-88 | Any other condition value runs the else-branch, or gives `Normal(Unit)` without one. |
| InterpreterProperties.WhileStops | src/interpreter/mod.rs:92-99 | A loop whose condition is not `Boolean(true)` does not run its body and gives `Normal(Unit)`. |
| InterpreterProperties.WhilePassesReturn | src/interpreter/mod.rs:93-96 | A `Return` from the body ends the loop and is passed on. |
| InterpreterProperties.WhileRepeats | src/interpreter/mod.rs:92-97 | After a normal body the loop starts over from the new state. |
| InterpreterProperties.DeclareAllScopes | src/interpreter/mod.rs:44-46 | Declaring names adds exactly those names, all bound to the value, to the innermost scope, and changes no other scope. |
| InterpreterProperties.DeclarationBindsAll | src/interpreter/mod.rs:37-49 | A declaration binds every listed variable to the initializer's value, or to `None` without one. |
| InterpreterProperties.VariableReadsNearestScope | src/interpreter/mod.rs:136-138 | A variable reads the innermost scope that defines it. |
| InterpreterProperties.UndefinedVariableFails | src/interpreter/mod.rs:136-141 | An unbound variable is `UndefinedVariable(name)` with target `None`. |
| InterpreterProperties.CallingNonFunctionFails | src/interpreter/mod.rs:150-162 | Calling a non-function is `NotCallable` on it, and no argument is evaluated. |
| InterpreterProperties.BinaryOperands | src/interpreter/mod.rs:120-148 | A comparison, addition or multiplication evaluates the left operand, then the right one in the state the left left, then applies `Compare` (comparisons) or `Numeric` (the rest). A failure of either operand, or of the operator as a panic, ends it. |
| InterpreterProperties.AccessOfNonObjectFails | src/interpreter/mod.rs:168-176 | A field of a non-object is `NotObject`. |
| InterpreterProperties.AccessReadsField | src/interpreter/mod.rs:169-175 | A field reads the object's value for it, or is `PropertyNotFound` on the object. |
| InterpreterProperties.IndexOfNonListFails | src/interpreter/mod.rs:180-192 | Indexing a non-list is `NotIndexable`, and the index is not evaluated. |
| InterpreterProperties.NonNumberIndexFails | src/interpreter/mod.rs:184-189 | A non-number index is `InvalidIndex` on the list. |
| InterpreterProperties.IndexReadsElement | src/interpreter/mod.rs:184-187 | A number index reads the element at `n as usize`. |
| InterpreterProperties.AssignVariable | src/expression.rs:112-114 | Assigning a bound variable is `put`: the nearest defining scope gets the value. |
| InterpreterProperties.AssignUndefinedFails | src/environment.rs:26 | Assigning a variable no scope defines stops, as the source panics. |
| InterpreterProperties.AssignFieldSets | src/expression.rs:179-184 | `o.f = v` sets field `f` of the object `o` evaluates to, and nothing else. |
| InterpreterProperties.AssignElementWrites | src/expression.rs:201-209 | `l[i] = v` writes position `i` of the list, and nothing else. |
| InterpreterProperties.AssignFieldOfNonObjectFails | src/expression.rs:179-186 | Assigning a field of a target that is not an object is the `is not an object` panic. |
| InterpreterProperties.AssignElementFails | src/expression.rs:201-214 | An element assignment to a non-list is the `is not an object` panic, and the index is then not evaluated. A non-number index is the `Cannot use .. as index` panic. A position past the end is the out-of-bounds panic. A failing index ends the assignment with its fault. |
| InterpreterProperties.AssignTargetFails | src/expression.rs:179-213 | A failure of the target ends a field or element assignment with that failure. |
| InterpreterProperties.AssignmentEvaluatesValueFirst | src/interpreter/mod.rs:29-35 | The value is evaluated before the target's `assign`. |
| InterpreterProperties.BindingsLookup | src/function.rs:36-40 | With distinct parameter names, parameter `i` is bound to argument `i`. |
| InterpreterProperties.EvalGivens | src/function.rs:37 | Value arguments evaluate to themselves and leave the state unchanged. |
| InterpreterProperties.BindingsPrefix | src/function.rs:36 | Only as many values as there are parameters take part in the bindings. |
| InterpreterProperties.BindValues | src/function.rs:36-40 | Binding values puts each parameter in the call's frame and changes nothing else. |
| InterpreterProperties.CallOnValues | src/function.rs:33-47 | A call on values runs the body in the call frame and returns its value with the caller's scope current. |
| InterpreterProperties.CallBodyState | src/function.rs:34-41 | The body runs in a scope holding exactly the bindings, whose parent is the closure's scope. |
| InterpreterProperties.MissingArgumentFails | src/function.rs:36-37 | Fewer arguments than parameters stops the call, as the source's out-of-bounds index panics. |
| InterpreterProperties.ExtraArgumentsIgnored | src/function.rs:36-37 | Arguments beyond the parameters are never evaluated: dropping them changes nothing. |
| InterpreterProperties.EvalArgsStep | src/function.rs:36-37 | Evaluating arguments evaluates the first, then the rest in the state it left. |
| InterpreterProperties.EvalArgsAppend | src/function.rs:36-37 | Evaluating `a1 + a2` evaluates `a1`, then `a2` in the state `a1` left; the values are concatenated. |
| InterpreterProperties.ArgumentsLeftToRight | src/function.rs:36-37 | Arguments are evaluated left to right. Argument `i` is evaluated in the state the arguments before it left. If it fails, the whole evaluation fails with its fault. |
| InterpreterProperties.BindExpressions | src/function.rs:36-40 | Binding a call's expressions evaluates the arguments that have a parameter, left to right in the caller's scope. Then frame `frame` gains `Bindings(params, vs)` and nothing else changes. An argument's failure, or a missing argument, stops the binding. |
| InterpreterProperties.BindParamsSteps | src/function.rs:36-40 | The same for any arguments, values included. |
| InterpreterProperties.EvalCallSteps | src/interpreter/mod.rs:150-165 | After the callee evaluates to a function, the call is `CallFunction` in a scope entered for it, then `exit`. |
| InterpreterProperties.CallFunctionSteps | src/function.rs:33-47 | A call with fuel binds the parameters in the call's scope, runs the body there, and returns the body's value with the caller's scope current. |
| InterpreterProperties.LeaveAfterCall | src/interpreter/mod.rs:164 | The `exit` after a call makes the caller's scope current again, with all frames kept. |
| InterpreterProperties.CallSteps | src/interpreter/mod.rs:150-166 | A call of a function is `CallFunction` in a newly entered scope. Afterwards the caller's scope is current again. |
| InterpreterProperties.CallEvaluatesArguments | src/interpreter/mod.rs:150-166 | For `f(e1..en)` on a function: the arguments with a parameter are evaluated left to right, in the caller's entered scope, after the callee. The body then runs in the call's frame with each parameter bound. The call's value is the body's, returned or not, and the caller's scope is current again. |
| InterpreterProperties.CallArgumentsFail | src/function.rs:36-37 | A call stops with the first argument failure. When every argument succeeds but there are fewer arguments than parameters, it stops as the out-of-bounds panic. |
| InterpreterProperties.ReturnAndLastValueAgree | src/function.rs:43-46 | `Normal(x)` and `Return(x)` from the body both give `x`. |
| InterpreterProperties.CallsAgree | src/function.rs:41-46 | Two closures with the same parameters and scope give the same call result when their bodies agree on outcome, value and final state, whatever the completion. |
| InterpreterProperties.ReturnOrExpression | src/interpreter/mod.rs:102-112 | `return e` and the statement `e` agree on outcome, value and final state, and differ only in the completion. |
| InterpreterProperties.CallResult | src/function.rs:41-46 | A call whose body completes with `c` returns `c`'s value. |
| InterpreterProperties.ObjectBuiltin | src/builtin.rs:13-15 | Calling `Object()` returns a fresh object without fields. |
| InterpreterProperties.OneParameter | src/function.rs:36-40 | A one-parameter builtin sees its argument under its parameter name. |
| InterpreterProperties.NewListOfSize | src/builtin.rs:17-27 | `List(n)` returns a new list of `n as usize` elements, all `None`. |
| InterpreterProperties.NewListWithoutSize | src/builtin.rs:21 | `List` with no size bound returns a new empty list. |
| InterpreterProperties.NewListOfNonNumberFails | src/builtin.rs:20 | `List` of a non-number is `Other("Not a size")` on it. |
| InterpreterProperties.NewObjectIsEmpty | src/builtin.rs:13-15 | The `Object` builtin appends an object without fields and changes nothing else. |
| InterpreterProperties.InternalRunsBuiltin | src/interpreter/mod.rs:114-116 | An internal statement runs its native function. |
| InterpreterProperties.MapOfNonFunctionFails | src/builtin.rs:30-34 | `map` of a non-function stops. |
| InterpreterProperties.MapOverNonListFails | src/builtin.rs:36-40 | `map` over a non-list stops. |
| InterpreterProperties.MapBuiltin | src/builtin.rs:29-55 | `map(f, l)` returns a new list of the mapped values, one per element of `l`. That list is appended after every list the callbacks left, so it is never `l`; `map` itself writes no other list. |
| InterpreterProperties.MapAppend | src/builtin.rs:42-49 | Mapping two lists joined is mapping the first, then the second from the resulting state. |
| InterpreterProperties.MapAppendFails | src/builtin.rs:42-49 | A failure while mapping a prefix is the failure of the whole mapping. |
| InterpreterProperties.MapElement | src/builtin.rs:42-49 | Element `i` of the result is `f` applied to element `i`, in the state the first `i` calls left. |
| InterpreterProperties.MapStopsAtFirstError | src/builtin.rs:42-54 | The first call that fails ends `map` with its fault. |
| Harness.Split | test.py:7 | `str.split`: at least one piece, no piece contains the separator, and joining the pieces with it gives the input back. |
| Harness.SplitOfJoin | test.py:7 | Splitting pieces joined by the separator gives the pieces back. |
| Harness.JoinWithEmptyLast | test.py:5-7 | Lines plus a final `''`, joined with `'\n'`, are the lines each followed by `'\n'`. |
| Harness.RunAndCompare | test.py:4-13 | The expected list is extended with `''`. The test passes exactly when no diagnostic is printed. |
| Harness.ReprList | test.py:12 | `%r` of a list is bracketed by `[` and `]`, and is `[]` exactly for the empty list. |
| Harness.PassesIffPrintsLines | test.py:7-10 | When no expected line contains `'\n'`, a test passes exactly when stdout is the expected lines, each followed by `'\n'`. |
| Harness.FailureDiagnostic | test.py:11-13 | A failing test prints "<file> test failed: <split> != <expected>" with both lists in `%r` form. |
| Harness.Outcomes | test.py:24-25 | One comparison per test, in table order. |
| Harness.CountPasses | test.py:23-26 | The reference tally: `0 <= successes <= len(tests)`. |
| Harness.AllPassIff | test.py:23-26 | The tally reaches the number of tests exactly when every test passes. |
| Harness.OneDiagnosticPerFailure | test.py:11-13 | One diagnostic is printed per failed test. |
| Harness.RunAll | test.py:23-28 | The loop counts exactly the reference tally, prints the failures' diagnostics in order, then the summary line. |
| Harness.AllPassWhenScriptsAgree | test.py:16-26 | When each script prints its expected lines, every test passes and nothing but the summary is printed. |
| Harness.AllScriptsPass | test.py:16-26 | For the table's four tests (`exp`, `fibonacci`, `counter`, `object`), scripts that agree give four passes and no diagnostics. |
| Harness.TestTable | test.py:16-21 | The table has four tests with distinct names, and no expected line holds a newline. |
| Harness.SummaryShape | test.py:28 | For any counts, the summary is a newline, the decimal number of passes, " / ", the decimal number of tests, and " tests succeeded". Both numbers read back from their digits. |
| Harness.Summary | test.py:28 | The summary starts with a newline and ends with ` tests succeeded`. `SummaryShape` and `SummaryDetermined` state the numbers in between. |
| Harness.SummaryDetermined | test.py:28 | Equal summary lines have equal counts: the line determines both numbers. |
| Harness.DigitsBeforeSpace | test.py:28 | A run of digits before a space splits the same way out of equal texts. |

## Left out

- The `print` builtin (src/builtin.rs:7-11), src/main.rs's argument and file handling, and the `subprocess.run` call in test.py. These are I/O. A script's captured standard output is the harness's `run` parameter. `Initial` binds the other three builtins.
- Floating point. Numbers are integers. `+ - *` are exact. A division with a remainder stops with `Fractional`, and division by zero stops with `NonFinite`; the source gives a non-integer float, or infinity or NaN. Display of a number, and the `Debug` form of a number token (`Number(<digits>.0)` in `Tokens.Debug`, which reaches the text of `ParserErrors.Display`), use integer notation. So `-0` and the exponent forms Rust switches to (`1e16` from 10^16 on) are not modelled.
- Values.Display: objects and lists have no text here, and an error whose target is one has no message. Their `Display`/`Debug` implementations are not part of this model.
- Values.ToIndex: the float-to-`usize` cast saturates at 0 for negative numbers as in Rust. The cast's saturation at the top of `usize` is not modelled, since integers are unbounded.
- `Rc`/`RefCell` borrow panics (for example a `map` callback that borrows the function being mapped) are not modelled. The heaps give the same sharing without borrow flags.
- Interpreter.SetField: field assignment (src/expression.rs:183) calls `Object::set_ref`, whose definition is not part of this model. It is taken to be `Object::set` (src/object.rs:21-23) on the borrowed object.
- Scope restoration on error paths is not claimed. The source's `?` inside an entered block (src/interpreter/mod.rs:54), and its `NotCallable` return after `enter` (src/interpreter/mod.rs:152), leave a scope entered. The model stops on a fault, so no state follows an error.
- Interpreter.ExecWhile, Interpreter.CallFunction, Interpreter.MapElems: one unit of fuel is spent per loop iteration and per call, and `OutOfFuel` ends evaluation when it runs out. A program that needs more fuel than it is given is not distinguished from a non-terminating one.
- Parser.Statement, Parser.Expression, Parser.Factor and the other parser functions: their contracts state only termination facts and the EOF cases. What they parse is stated by the round-trip and error lemmas of `ParserProperties` and `StatementProperties`, for printed well-formed input.
- Interpreter.Eval, Interpreter.EvalBinary, Interpreter.EvalCall, Interpreter.EvalAccess, Interpreter.EvalIndex, Interpreter.CallFunction, Interpreter.BindParams, Interpreter.AssignField, Interpreter.AssignElement and the statement functions: their contracts state the invariant they keep, not the result. The result of each case is stated by a lemma of `InterpreterProperties`: `BinaryOperands`, `CallEvaluatesArguments`, `CallArgumentsFail`, `BindExpressions`, `AccessReadsField`, `IndexReadsElement`, `AssignFieldSets`, `AssignElementWrites`, `AssignElementFails` and the others in the table.
- Interpreter.AssignField, Interpreter.AssignElement, Interpreter.CallFunction: the source mixes two versions of its API. src/interpreter/mod.rs evaluates with `Result` and propagates errors with `?` (`f.call(self, &expr.params)?` at line 158). src/expression.rs:179-215 and src/function.rs:33-47 still use the infallible `accept`: `assign` returns `()`, `call` returns a bare value, and src/interpreter/mod.rs:32 discards the outcome of `assign`. Likewise `numeric` and `boolean` (src/expression.rs:41-78) return a bare `ScriptValue`, yet `visit_addition`, `visit_multiplication` and `visit_condition` return them as an `ExpressionResult` (src/interpreter/mod.rs:123, 129 and 147); the model wraps their value in `Success` and their panics in `Halted`. As written, an error inside an assignment target, an argument or a function body has no type-correct path. The model reconciles the two by propagating such an error as it does everywhere else. So `x.f = 1` with `x` unbound stops with `Raised(UndefinedVariable("x"))`, and so does an argument or a body that raises.
- Interpreter.BindParams: the source binds each parameter in the callee's new scope as soon as its argument is evaluated; the model evaluates the arguments first and then binds them all. The callee's scope is unreachable from the caller's expressions, so the results, the errors and their order are the same.
- Tokens.Debug: its own contract states only that the text is non-empty. `DebugReadsBack` states the payload forms. The payload-less variants are written as their variant names, as Rust's derived `Debug` does, and no lemma restates that list.
- Tokens.EscapeDebug: only ASCII is escaped. Rust also writes non-printable and grapheme-extending Unicode characters as `\u{..}`; those are kept as they are here.
- Harness.FailureDiagnostic: `Repr` wraps a string in single quotes without Python's escaping of quotes and control characters.
- The superseded copies src/parser.rs and src/interpreter.rs, the stale src/token.rs, and the data-only src/statement.rs are not part of this model. The token type is defined afresh from the variants src/scanner.rs and src/parser/mod.rs use. The scanner produces bare token types, since the version shown tracks no lines; the parser reads `Token(type, line)`.
- A script's call of a builtin, such as `List(n)`, is not one lemma per builtin. `CallEvaluatesArguments` states any call. The builtins' own results are stated by `NewListOfSize`, `NewObjectIsEmpty` and `MapBuiltin` on the state their body runs in.
- The panics of the source become `Halted` faults, each with its own reason. The panics are: `numeric`/`boolean` on unsupported operands, `put` of an undefined name, `exit` of the root, `assign` on a non-assignable target or the wrong kind of value, and `map` on a non-function or non-list. Their messages are not modelled.
- An out-of-range list index, which panics in the source, stops with `IndexOutOfBounds`.
