# Cria front end and printer, modelled in Dafny

Cria is a small expression language whose programs are tokenized, parsed into
an expression tree, type checked and printed back as JavaScript. This project
models that pipeline and proves properties of each stage:

- **Tokenizer** (`lexer.dfy`, module `Lexer`). `Lex` turns text into
  tokens. At each position it tries, in order: a digit run, a keyword (matched
  as a prefix), an identifier, a quoted string, then one- and two-character
  operators and punctuation. Any other character is skipped.
  `lexer_properties.dfy` proves keyword and operator priority and skipping.
  It also proves that fixed tokens, numbers, identifiers and quoted strings
  lex back to what they were.
- **String helpers** (`utils.dfy`, module `Utils`). `Take` and `TakeWhile` are
  methods with the source's loops. Each is proved against a specification:
  a slice for `Take`, the unique longest prefix `PrefixWhile` for `TakeWhile`.
  The module also holds the character classes and the decimal reading and
  writing of numbers, with their round trip.
- **Parser** (`parser.dfy`, module `Parser`). The source's `Parser` class
  becomes a Dafny `class` with the token list and the mutable position `pos`.
  Each `parse…` method keeps the source's `while` loops. Each method is proved
  equal to a grammar function (`…F`) over the remaining suffix of tokens. A
  thrown error becomes a `Failure` carrying a `ParseError`.
  `parser_properties.dfy` states each grammar rule as a lemma and proves
  completeness as a round trip: for any well-formed program,
  `ParseAllF(TokensSeq(es), []) == Success(es)`.
- **Type checker** (`checker.dfy`, module `Checker`). It has the type
  equality, `Infer` over every expression form and `Check` over a sequence.
  `Check` threads the context through the sequence: a declaration prepends
  a binding for the rest. `checker_properties.dfy` gives each form's typing
  rule in both directions, with its failure cases. It also states what a
  successful `Check` leaves in the context: one fresh binding per
  declaration, in reverse order, and each function bound to its declared
  signature.
- **Printer** (`printer.dfy`, module `Printer`). This is a Wadler-style
  document algebra, its renderer `Be`/`Best`/`Layout`, and the translation of
  each expression into JavaScript. `printer_properties.dfy` defines a
  reference meaning `Denote` and proves that the renderer agrees with it.
  From that it derives the document laws and the exact text of each
  expression form.
  - The printer writes operations without parentheses. `OperationGroupingLost`
    proves that `(outer (inner x y) z)` and `(inner x (outer y z))` print the
    same text. For example, `(* (+ 1 2) 3)` prints as `1 + 2 * 3`.
- **Examples** (`checker_examples.dfy`, `parser_examples.dfy`,
  `lexer_examples.dfy`). Most of them are the repository's own test cases
  (tests/utils.ts, tests/lexer.ts, tests/parser.ts, tests/checker.ts),
  stated as lemmas and proved from the rules; some are generalised over the
  values the test uses. `BranchExample`, `InnerBranch` and
  `RecursionExample` match no test: they run the conditional rule
  (src/checker.ts:228-267) and the self-binding of a declared function
  (src/checker.ts:400-415) on programs of their own. The remaining lemmas
  in these files are steps of those proofs.

Two behaviours of src/checker.ts that the model keeps:

- `infer` on a function literal checks the body in the context it is given.
  Only `check` and a function passed as an argument build the internal
  context, which holds the function's own signature and its parameters
  (src/checker.ts:394-415, src/checker.ts:168-189).
- Parameter lists of arrows are compared by identity in the code. The model
  compares them by value; see "## Findings".

Shared sequence facts are in `sequences.dfy`. The option and result types are
in `wrappers.dfy`. The expression tree, types and size measures are in
`ast.dfy`.

## Model

| member | source | states |
|---|---|---|
| Ast.ParamTypes | src/checker.ts:273 | the declared parameter types, in order, one per parameter |
| Utils.TakeDrop | src/utils.ts:1-2 | the first n characters followed by what dropFromString leaves are the whole string, and what it leaves is n shorter (empty once n passes the end) |
| Utils.PrefixThenRest | src/lexer.ts:127-172 | a matched keyword followed by the text after it is the text the lexer started from |
| Utils.StartsWith | src/lexer.ts:127-172 | `take(str, k) === kw` decides that kw is a prefix of the text; Utils.Take and Utils.PrefixThenRest state its use |
| Utils.Take | src/utils.ts:4-12 | the loop builds exactly the first n characters (for n within the string) |
| Utils.PrefixWhile | src/utils.ts:14-39 | a prefix of the input, every character satisfies the condition, and the next character (if any) fails it |
| Utils.PrefixWhileUnique | src/utils.ts:14-39 | any prefix with those three properties is PrefixWhile: the longest satisfying prefix is unique |
| Utils.TakeWhile | src/utils.ts:14-39 | the scanning loop returns the longest prefix whose characters satisfy the condition, which equals PrefixWhile |
| Utils.IsLetter | src/utils.ts:41-43 | a one-character ASCII letter; Utils.CharClasses states how it relates to the other classes |
| Utils.IsDigit | src/utils.ts:44-46 | a one-character ASCII digit; Utils.CharClasses states how it relates to the other classes |
| Utils.IsAlphaNum | src/utils.ts:47-49 | a one-character ASCII letter or digit; Utils.CharClasses states that it is their disjunction |
| Utils.CharClasses | src/utils.ts:41-48 | letters and digits are disjoint one-character classes; isAlphaNum holds exactly for one ASCII letter or digit |
| Utils.DigitChar | src/printer.ts:155 | the character of a digit below ten is a digit whose value is that digit |
| Utils.DecimalText | src/printer.ts:155 | the text of a number is a non-empty digit string with no leading zero |
| Utils.DecimalValue | src/lexer.ts:114 | the exact value of a digit string (`Number(number)` without rounding); Utils.DecimalRoundTrip and LexerExamples.TakeNumberExample state its values |
| Utils.DecimalRoundTrip | src/lexer.ts:110-115 | reading the printed text of a number (Number of the digit string) yields the number |
| Lexer.TakeLiteral | src/lexer.ts:91-99 | splits the input into identifier characters and a rest that does not start with one; a letter-initial input shrinks |
| Lexer.TakeString | src/lexer.ts:101-108 | drops the opening quote, takes the quote-free text, drops the closing quote (of either kind); unterminated text runs to the end |
| Lexer.TakeNumber | src/lexer.ts:110-115 | the value of the longest digit prefix and the rest, which does not start with a digit |
| Lexer.TokenToString | src/lexer.ts:35-89 | the source text of each token; LexerProperties.FixedTokenRoundTrip and LexerProperties.NumberRoundTrip state that it lexes back |
| Lexer.Lex | src/lexer.ts:117-265 | the token list of a text, one case per leading character or keyword; the LexerProperties lemmas below state each case and the round trips |
| LexerProperties.LexEmpty | src/lexer.ts:118 | empty text has no tokens |
| LexerProperties.LexSkips | src/lexer.ts:263 | a character no rule accepts is dropped without a token |
| LexerProperties.KeywordLexes | src/lexer.ts:126-173 | each of the nine keywords is recognised as a prefix, whatever follows it, with its token |
| LexerProperties.TwoCharOperatorLexes | src/lexer.ts:187-249 | `==`, `!=`, `>=`, `<=` take priority over `=`, `>`, `<` |
| LexerProperties.OneCharOperatorLexes | src/lexer.ts:191-253 | without a following `=`, `=`, `>` and `<` give Equal, Greater and Less |
| LexerProperties.SingleCharTokenLexes | src/lexer.ts:195-261 | each one-character punctuation or arithmetic token is produced by its character, whatever follows |
| LexerProperties.FixedTokenLexes | src/lexer.ts:35-89 | the text of a fixed token followed by any text not starting with `=` lexes to that token followed by the tokens of the text |
| LexerProperties.FixedTokenRoundTrip | src/lexer.ts:35-89 | the text of every fixed token (keywords, punctuation, operators, Booleans) lexes back to exactly that token |
| LexerProperties.NumberRoundTrip | src/lexer.ts:110-125 | the decimal text of a number lexes back to one number token with that value |
| LexerProperties.IdentifierRoundTrip | src/lexer.ts:175-177 | an identifier that starts with no keyword lexes to one literal token carrying it |
| LexerProperties.IdentifierLexes | src/lexer.ts:175-177 | an identifier followed by text that cannot continue it lexes to its literal token and lexing continues after it |
| LexerProperties.QuotedStringLexes | src/lexer.ts:181-185 | a double-quoted quote-free text lexes to one string token and lexing continues after the closing quote |
| LexerExamples.TakeLiteralExample | tests/lexer.ts:11-16 | `literal-123_*` splits into `literal-123_` and `*` |
| LexerExamples.TakeStringExample | tests/lexer.ts:18-23 | `"string"*` splits into `string` and `*` |
| LexerExamples.TakeNumberExample | tests/lexer.ts:25-30 | `1234*` splits into 1234 and `*` |
| LexerExamples.VariableCode | tests/lexer.ts:32-43 | `cria name = "value";` lexes to VariableDeclaration, Literal, Equal, String, SemiColon, for any identifier and quote-free value |
| UtilsExamples.TakeExample | tests/utils.ts:5-10 | the first four characters of `aaaabbbb` are `aaaa` |
| UtilsExamples.TakeWhileExample | tests/utils.ts:12-17 | the run of `c` at the start of `cccccab` is `ccccc`, of length 5 |
| UtilsExamples.DropExample | tests/utils.ts:19-24 | `minga` without its first three characters is `ga` |
| ParserProperties.ConsumeSplit | src/parser.ts:19-42 | reading a kind succeeds with a token and a rest exactly when the input is that token, of that kind, followed by the rest; it fails exactly when the next token has another kind or there is none |
| Parser.ParseParamF | src/parser.ts:68-71 | a parameter is exactly three tokens |
| Parser.ParamLoopF | src/parser.ts:73-83 | the parameter loop never grows the remaining input |
| Parser.ParseParamsF | src/parser.ts:65-86 | the parameter list never grows the remaining input |
| Parser.ParseOneF | src/parser.ts:176-225 | a successful parse of one expression consumes at least one token |
| Parser.ParseVariableF | src/parser.ts:44-57 | a successful variable parse consumes at least one token |
| Parser.BodyLoopF | src/parser.ts:95-97 | the body loop never grows the remaining input |
| Parser.ParseBlockF | src/parser.ts:91-99 | a successful block parse consumes at least one token |
| Parser.ParseReturnTypeF | src/parser.ts:86-89 | the closing parenthesis, colon and type are exactly three tokens |
| Parser.ParseSignatureF | src/parser.ts:63-89 | a successful signature parse consumes at least one token |
| Parser.ParseFunctionF | src/parser.ts:59-108 | a successful function parse consumes at least one token |
| Parser.ParseIfF | src/parser.ts:110-130 | a successful conditional parse consumes at least one token |
| Parser.ParseReturnF | src/parser.ts:132-142 | a successful return parse consumes at least one token |
| Parser.ParseOperationF | src/parser.ts:185-206 | a successful operation parse consumes at least one token |
| Parser.ArgLoopF | src/parser.ts:153-158 | the argument loop never grows the remaining input |
| Parser.ParseArgsF | src/parser.ts:150-159 | the argument list never grows the remaining input |
| Parser.ParseFunctionAppF | src/parser.ts:144-174 | a successful call parse consumes at least one token |
| Parser.Parser.constructor | src/parser.ts:11-13 | a parser holds the tokens and starts at position 0 |
| Parser.Parser.Peek | src/parser.ts:15-17 | the token at the cursor, or nothing at the end; Parser.Parser.Parse loops while it is present |
| Parser.Parser.Consume | src/parser.ts:19-42 | agrees with ConsumeF; the position advances past an existing token, even when it has the wrong kind, and stays at the end otherwise |
| Parser.Parser.SkipSemicolon | src/parser.ts:50-54 | the remaining tokens become SkipSemicolonF of the old ones |
| Parser.Parser.ParseVariable | src/parser.ts:44-57 | result and new position agree with ParseVariableF |
| Parser.Parser.ParseParam | src/parser.ts:68-71 | result and new position agree with ParseParamF |
| Parser.Parser.ParseParams | src/parser.ts:65-86 | the while loop agrees with ParseParamsF |
| Parser.Parser.ParseReturnType | src/parser.ts:86-89 | result and new position agree with ParseReturnTypeF |
| Parser.Parser.ParseSignature | src/parser.ts:63-89 | result and new position agree with ParseSignatureF |
| Parser.Parser.ParseBlock | src/parser.ts:91-99 | the body loop agrees with ParseBlockF |
| Parser.Parser.ParseFunction | src/parser.ts:59-108 | result and new position agree with ParseFunctionF |
| Parser.Parser.ParseIf | src/parser.ts:110-130 | result and new position agree with ParseIfF |
| Parser.Parser.ParseReturn | src/parser.ts:132-142 | result and new position agree with ParseReturnF |
| Parser.Parser.ParseArgs | src/parser.ts:148-159 | the argument loop agrees with ParseArgsF |
| Parser.Parser.ParseFunctionApp | src/parser.ts:144-174 | result and new position agree with ParseFunctionAppF |
| Parser.Parser.ParseOperation | src/parser.ts:185-206 | result and new position agree with ParseOperationF |
| Parser.Parser.ParseOne | src/parser.ts:176-225 | agrees with ParseOneF and advances on success |
| Parser.Parser.Parse | src/parser.ts:227-235 | the top-level loop agrees with ParseAllF and, on success, stops at the end of the tokens |
| Parser.ParseProgram | src/parser.ts:227-235 | a fresh parser's parse of a token list is ParseAllF of it |
| ParserProperties.DispatchVariable | src/parser.ts:177-178 | `cria` starts a variable declaration |
| ParserProperties.DispatchFunction | src/parser.ts:180-181 | `pegaVisao` starts a function declaration |
| ParserProperties.DispatchIf | src/parser.ts:183 | `qualfoi?` starts a conditional |
| ParserProperties.DispatchOperation | src/parser.ts:185-189 | an operator, or `(` followed by an operator, starts an operation |
| ParserProperties.DispatchReturn | src/parser.ts:208 | `tomali` starts a return |
| ParserProperties.DispatchApp | src/parser.ts:210-213 | a name followed by `(` starts a call |
| ParserProperties.DispatchName | src/parser.ts:210-215 | a name not followed by `(` is a name reference |
| ParserProperties.DispatchString | src/parser.ts:218 | a string token is a string literal |
| ParserProperties.DispatchNumber | src/parser.ts:220 | a number token is a number literal |
| ParserProperties.DispatchBoolean | src/parser.ts:222 | a Boolean token is a Boolean literal |
| ParserProperties.UnexpectedTokenRule | src/parser.ts:224 | a token that starts no expression is reported as unexpected |
| ParserProperties.StrayParenthesisRule | src/parser.ts:185-224 | `(` not followed by an operator is unexpected |
| ParserProperties.EndOfInputRule | src/parser.ts:224 | an expression is expected but the input is empty |
| ParserProperties.VariableRule | src/parser.ts:44-57 | `cria name =` then a value gives the variable; one optional `;` after it is dropped |
| ParserProperties.ReturnRule | src/parser.ts:132-142 | `tomali` then a value gives the return; one optional `;` is dropped |
| ParserProperties.OperationRule | src/parser.ts:185-206 | an operator followed by two operands gives the operation over them |
| ParserProperties.ParenthesizedOperationRule | src/parser.ts:185-206 | the parenthesised form also needs `)` after the right operand, or fails expecting it |
| ParserProperties.AppRule | src/parser.ts:144-174 | a call needs `)` after its arguments; the name `radinho` makes a print; a `;` is dropped |
| ParserProperties.NameRule | src/parser.ts:210-215 | a name not followed by `(` is a reference and consumes one token |
| ParserProperties.IfRule | src/parser.ts:110-130 | `qualfoi? (` condition `)` block gives the conditional |
| ParserProperties.FunctionRule | src/parser.ts:59-108 | `pegaVisao name (` params `) : type` block gives the function declaration |
| ParserProperties.BlockRule | src/parser.ts:91-99 | `{` then body expressions up to `}` gives the body |
| ParserProperties.BodyStep | src/parser.ts:95-97 | the body loop parses one more expression while the next token is not `}` |
| ParserProperties.ArgStep | src/parser.ts:154-157 | the argument loop consumes `,` and one more argument |
| ParserProperties.FirstArgStep | src/parser.ts:150-159 | the first argument, then the comma loop only if a `,` follows |
| ParserProperties.ProgramStep | src/parser.ts:230-232 | the top-level loop parses one more expression while tokens remain |
| ParserProperties.ParamRoundTrip | src/parser.ts:68-71 | the tokens of a parameter parse back to it |
| ParserProperties.ParamStep | src/parser.ts:74-82 | the parameter loop consumes `,` and one more parameter |
| ParserProperties.MoreParamsRoundTrip | src/parser.ts:73-83 | comma-separated parameter tokens parse back to the parameters, appended to those already read |
| ParserProperties.ParamsRoundTrip | src/parser.ts:65-86 | the tokens of any parameter list parse back to it |
| ParserProperties.LeafRoundTrip | src/parser.ts:210-222 | the token of a name or literal parses back to it |
| ParserProperties.VariableRoundTrip | src/parser.ts:44-57 | the tokens of a well-formed variable parse back to it |
| ParserProperties.ReturnRoundTrip | src/parser.ts:132-142 | the tokens of a well-formed return parse back to it |
| ParserProperties.OperationRoundTrip | src/parser.ts:185-206 | the prefix tokens of a well-formed operation parse back to it |
| ParserProperties.BlockRoundTrip | src/parser.ts:91-99 | a braced sequence of well-formed expressions parses back to it |
| ParserProperties.BodyRoundTrip | src/parser.ts:93-97 | the body loop reads back every expression up to `}` |
| ParserProperties.FunctionRoundTrip | src/parser.ts:59-108 | the tokens of a well-formed function declaration parse back to it |
| ParserProperties.IfRoundTrip | src/parser.ts:110-130 | the tokens of a well-formed conditional parse back to it |
| ParserProperties.MoreArgsRoundTrip | src/parser.ts:153-158 | comma-separated argument tokens parse back to the arguments |
| ParserProperties.ArgsRoundTrip | src/parser.ts:148-159 | the tokens of any well-formed argument list parse back to it |
| ParserProperties.AppRoundTrip | src/parser.ts:144-174 | the tokens of a well-formed call or print parse back to it |
| ParserProperties.RoundTrip | src/parser.ts:176-225 | every well-formed expression's tokens parse back to it, leaving any rest that starts no `;` or `(` |
| ParserProperties.ProgramRoundTrip | src/parser.ts:227-235 | the tokens of any well-formed program parse back to exactly that program |
| ParserExamples.VariableWithSemicolon | tests/parser.ts:7-27 | `cria test = "test";` parses to one variable holding the string |
| ParserExamples.NestedOperations | tests/parser.ts:205-243 | `( + n ( + n ( + n n ) ) )` parses to right-nested additions for any number `n`; the test is the case `n == 1` |
| ParserExamples.ParenthesizedParamList | src/parser.ts:67-71 | a parameter list whose first type starts with `(` fails with "expected a type keyword, found `(`" |
| ParserExamples.ParenthesizedParamType | src/parser.ts:59-71 | a function header `name(f : ( ...`, the shape of the high-order test at tests/parser.ts:316-320, fails at that `(` with "expected a type keyword" |
| Checker.StrictEqualParams | src/checker.ts:18-27 | parameter lists are equal exactly when they are equal value by value, in count and order |
| Checker.Equal | src/checker.ts:29-43 | type equality coincides with value equality |
| Checker.ParamBindings | src/checker.ts:394-399 | one binding per parameter, in order, holding its name and declared type |
| Checker.Lookup | src/checker.ts:208 | `context.find` by name: the value of the first binding of the name; CheckerProperties.LookupSpec and LookupFinds state it |
| Checker.InferLiteral | src/checker.ts:204-216 | a name's type, or UnresolvedName; CheckerProperties.NameTyping states it |
| Checker.Infer | src/checker.ts:324-343 | the type of an expression, by its form; CheckerProperties.BasicTyping, NameTyping, ValueTyping, IfTyping, FunctionTyping, AppTyping and ConsoleTyping state each form |
| Checker.InferOp | src/checker.ts:57-105 | the type of an operation; CheckerProperties.OperandFailure, ComparisonTyping, PlusTyping and ArithmeticTyping state it |
| Checker.InferFunctionApp | src/checker.ts:107-202 | the type of a call; CheckerProperties.AppTyping states it |
| Checker.InferArgs | src/checker.ts:128-197 | the argument types of a call, in order; CheckerProperties.InferArgsSpec states it |
| Checker.InferArg | src/checker.ts:129-196 | the type of one argument; CheckerProperties.ArgumentTyping states which forms are accepted |
| Checker.DeclareFunction | src/checker.ts:146-190 | a function literal passed as an argument, inferred in its internal context; CheckerProperties.DeclareTyping states it |
| Checker.InferNestedIfs | src/checker.ts:247-252 | the types of the conditionals directly in a body; CheckerProperties.NestedIfsSuccess and NestedIfsSpec state it |
| Checker.InferIf | src/checker.ts:228-267 | the type of a conditional; CheckerProperties.IfTyping and IfFailures state it |
| Checker.InferFunction | src/checker.ts:269-309 | the type of a function literal; CheckerProperties.FunctionTyping and FunctionFailures state it |
| Checker.InferConsole | src/checker.ts:311-322 | a print is Void when it has values and they check; CheckerProperties.ConsoleTyping states it |
| Checker.Check | src/checker.ts:345-434 | the context after checking a sequence; CheckerProperties.CheckVariable, CheckFunction, CheckOther, CheckAppend, CheckContext, CheckFreshNames and CheckFunctionSignatures state it |
| Checker.FirstReturn | src/checker.ts:237-239 | the first return statement of a body, found exactly when there is one, and none before it |
| CheckerProperties.EqualByTag | src/checker.ts:39-42 | when one side is not an arrow, equality is equality of tags |
| CheckerProperties.EqualArrows | src/checker.ts:30-37 | arrows are equal exactly when their return types and their parameter lists are equal, element by element |
| CheckerProperties.StrictEqualParamsByIdentity | src/checker.ts:18-27 | the comparison as written: equal lengths and identical objects at every position |
| CheckerProperties.IdentityImpliesValue | src/checker.ts:18-27 | on a consistent heap, identity of the parameter objects implies value equality of the lists |
| CheckerProperties.IdentityRejectsEqualArrows | src/checker.ts:18-43 | two separately allocated `number` parameter types make equal arrows compare unequal |
| CheckerProperties.BasicTyping | src/checker.ts:324-327 | literals infer their own type in any context |
| CheckerProperties.NameTyping | src/checker.ts:204-216 | a name fails exactly when no binding has it, and otherwise has the type of its most recent binding |
| CheckerProperties.LookupSpec | src/checker.ts:208 | lookup finds nothing exactly when the name is unbound, and otherwise returns the first binding |
| CheckerProperties.LookupFinds | src/checker.ts:208 | lookup returns the value of the first binding of the name |
| CheckerProperties.LookupSuffix | src/checker.ts:353-356 | a name missing from a context is missing from every suffix of it |
| CheckerProperties.ValueTyping | src/checker.ts:218-226 | a variable and a return have the type of their value |
| CheckerProperties.OperandFailure | src/checker.ts:57-63 | an operation fails with its left operand's error, else with its right operand's |
| CheckerProperties.ComparisonTyping | src/checker.ts:64-75 | a comparison is Boolean exactly when its operand types are equal, and a mismatch otherwise |
| CheckerProperties.PlusTyping | src/checker.ts:76-90 | `+` is number on two numbers, string on two strings, and a mismatch otherwise |
| CheckerProperties.ArithmeticTyping | src/checker.ts:91-105 | `-`, `*`, `/`, `%` have type number exactly on two numbers, and a mismatch otherwise |
| CheckerProperties.IfsOf | src/checker.ts:248 | every item of the list is a conditional, and the list is no longer than the body |
| CheckerProperties.IfsOfContents | src/checker.ts:248 | every listed conditional comes from the body and every conditional of the body is listed |
| CheckerProperties.NestedIfsSuccess | src/checker.ts:248-253 | the nested conditionals infer exactly when each of them infers |
| CheckerProperties.NestedIfsSpec | src/checker.ts:248-253 | the inferred types are those of the nested conditionals, one each, in order |
| CheckerProperties.BranchesAgreeSpec | src/checker.ts:248-263 | every nested conditional has the given type exactly when the types inferred agree with it |
| CheckerProperties.IfTyping | src/checker.ts:228-267 | a conditional has type T exactly when its condition is Boolean, its first return has type T, its nested conditionals have type T and its body checks |
| CheckerProperties.IfFailures | src/checker.ts:234-262 | the non-Boolean condition, missing return and inconsistent branch errors and when each is raised |
| CheckerProperties.FunctionTyping | src/checker.ts:269-309 | a function literal has a type exactly when its first return and its nested conditionals have the declared return type and its body checks; the type is the arrow of its signature |
| CheckerProperties.FunctionFailures | src/checker.ts:279-305 | the missing return and return type mismatch errors and when each is raised |
| CheckerProperties.SelfBinding | src/checker.ts:402-412 | inside its body a function's name is bound to its declared signature |
| CheckerProperties.ParamBinding | src/checker.ts:394-412 | inside its body each parameter (not shadowed by the name or an earlier parameter) has its declared type |
| CheckerProperties.DeclareTyping | src/checker.ts:370-415 | a declaration fails on a bound name, then on a bound parameter name, and is otherwise inferred in the internal context; its type is its signature |
| CheckerProperties.InferArgsSpec | src/checker.ts:128-199 | arguments infer exactly when each does, giving their types in order |
| CheckerProperties.ArgumentTyping | src/checker.ts:128-199 | which expressions may be arguments, how each is typed, and that the others are rejected |
| CheckerProperties.AppTyping | src/checker.ts:107-202 | a call fails on an unbound name and on a non-function, and otherwise has the return type exactly when the argument types are the parameter types |
| CheckerProperties.ConsoleTyping | src/checker.ts:311-322 | a print of nothing fails, and otherwise is Void exactly when its values check |
| CheckerProperties.DeclaredNames | src/checker.ts:352-392 | at most one declared name per expression |
| CheckerProperties.CheckAppend | src/checker.ts:345-427 | checking a concatenation checks the first part and then the second in the resulting context |
| CheckerProperties.CheckVariable | src/checker.ts:352-368 | a variable declaration fails on a bound name, succeeds exactly when its value infers, and prepends its binding |
| CheckerProperties.CheckFunction | src/checker.ts:370-419 | a function declaration fails on a bound name or parameter name, and on success prepends its signature |
| CheckerProperties.CheckOther | src/checker.ts:421-426 | any other expression is inferred and leaves the context unchanged |
| CheckerProperties.CheckStep | src/checker.ts:345-427 | one step of the fold: the context a declaration leaves holds one new fresh binding |
| CheckerProperties.CheckContext | src/checker.ts:345-427 | the final context is the declared names in reverse order, each fresh where it was bound, on top of the initial context |
| CheckerProperties.DeclaredFresh | src/checker.ts:352-377 | a name declared over a context was unbound in it |
| CheckerProperties.DeclaredDistinct | src/checker.ts:352-377 | two names declared over a context differ |
| CheckerProperties.CheckFreshNames | src/checker.ts:352-377 | the names a checked sequence declares are pairwise distinct and absent from the initial context |
| CheckerProperties.CheckFunctionSignatures | src/checker.ts:370-419 | after checking, every declared function's name looks up to its declared signature |
| CheckerProperties.NonDeclarationsKeepContext | src/checker.ts:421-426 | a sequence without declarations leaves the context as it was |
| CheckerExamples.NameExamples | tests/checker.ts:6-21 | an unbound name is an error; a bound one checks |
| CheckerExamples.VariableExample | tests/checker.ts:33-45 | a Boolean variable is bound to Boolean |
| CheckerExamples.MismatchExamples | tests/checker.ts:89-205 | comparing or adding a number and a Boolean is a mismatch; `%` on numbers is a number |
| CheckerExamples.IfExamples | tests/checker.ts:207-242 | a valid conditional, a non-Boolean condition and a missing return |
| CheckerExamples.BranchExample | src/checker.ts:248-263 | a conditional whose nested conditional returns a number while it returns a Boolean is rejected, whatever the conditions and values |
| CheckerExamples.InnerBranch | src/checker.ts:228-267 | a conditional with a Boolean condition whose branch returns a number has the number type |
| CheckerExamples.ConsoleExample | tests/checker.ts:329-347 | a print of nothing is an error; a print of a Boolean checks |
| CheckerExamples.FunctionsExample | tests/checker.ts:244-280 | two declarations bind their signatures, the later one first |
| CheckerExamples.UnboundCallExample | tests/checker.ts:315-327 | a call of an undeclared function is an error |
| CheckerExamples.HigherOrderExample | tests/checker.ts:359-512 | `add` passed to `test` and the result bound: the final context of the test |
| CheckerExamples.RecursionExample | src/checker.ts:400-415 | a recursive factorial checks, since its body sees its own signature |
| Printer.Copy | src/printer.ts:19 | i copies of x have length i times the length of x |
| Printer.ParamNames | src/printer.ts:195 | the parameter names, one per parameter, in order |
| Printer.Layout | src/printer.ts:53-63 | the text of a normal form; PrinterProperties.LayoutBe states it over the renderer |
| Printer.Be | src/printer.ts:65-98 | the renderer over a work list; PrinterProperties.BeIgnoresColumn and LayoutBe state it |
| Printer.Best | src/printer.ts:100 | the renderer on one document; PrinterProperties.RenderMeaning states its text |
| Printer.Pretty | src/printer.ts:102 | the text of a document; PrinterProperties.PrettyMeaning, PrettyNilAndText and PrettyAppend state it |
| Printer.ParametersToDoc | src/printer.ts:104-117 | the parameter names separated by `, `; PrinterProperties.ParametersJoin and ParametersCut state it |
| Printer.ConvertExprsInSequence | src/printer.ts:119-132 | arguments separated by `, `; PrinterProperties.ArgumentsJoin states it |
| Printer.PrintExprs | src/printer.ts:134-147 | expressions separated by two line breaks; PrinterProperties.ExpressionsJoin states it |
| Printer.BlockDoc | src/printer.ts:201-205 | a braced block nested two columns; PrinterProperties.BlockForm states its text |
| Printer.PrintExpr | src/printer.ts:149-282 | the JavaScript document of one expression; the PrinterProperties form lemmas state the text of each form |
| Printer.PrintProgram | src/printer.ts:284 | the JavaScript text of a program; PrinterProperties.PrintProgramJoin states it |
| PrinterProperties.BeIgnoresColumn | src/printer.ts:65-98 | the renderer's output never depends on the column it starts in |
| PrinterProperties.LayoutBe | src/printer.ts:53-98 | laying out the rendering of a work list gives the concatenated meanings of its items |
| PrinterProperties.RenderMeaning | src/printer.ts:100 | a document renders as its meaning at indentation 0, whatever the starting column |
| PrinterProperties.PrettyMeaning | src/printer.ts:102 | the printed text of a document is its meaning |
| PrinterProperties.PrettyNilAndText | src/printer.ts:21-31 | nil prints nothing and a text prints itself |
| PrinterProperties.PrettyAppend | src/printer.ts:10-12 | appended documents print one after the other |
| PrinterProperties.CopyAdd | src/printer.ts:19 | copies of a sum are the concatenated copies |
| PrinterProperties.CopySpaces | src/printer.ts:59 | an indentation of i is exactly i spaces |
| PrinterProperties.DenoteNestAll | src/printer.ts:80-84 | nested indentations add up |
| PrinterProperties.NestedLine | src/printer.ts:80-94 | a line break under nestings prints a newline and the sum of the indentations in spaces |
| PrinterProperties.ParametersJoin | src/printer.ts:104-117 | non-empty parameter names print separated by `, ` |
| PrinterProperties.ParametersCut | src/printer.ts:104-117 | the list stops at the first empty name, keeping the `, ` written before it |
| PrinterProperties.RenderAll | src/printer.ts:119-147 | the text of each expression, one per expression |
| PrinterProperties.ArgumentsJoin | src/printer.ts:119-132 | arguments print separated by `, ` |
| PrinterProperties.ExpressionsJoin | src/printer.ts:134-147 | expressions print separated by an empty line at the current indentation |
| PrinterProperties.PrintProgramJoin | src/printer.ts:284 | a program prints as its expressions separated by blank lines |
| PrinterProperties.StringForm | src/printer.ts:150-152 | a string prints between double quotes |
| PrinterProperties.NumberForm | src/printer.ts:154-156 | a number prints as its decimal text, which reads back as the number |
| PrinterProperties.BooleanForm | src/printer.ts:158-160 | Booleans print as `true` and `false` |
| PrinterProperties.LiteralForm | src/printer.ts:162-164 | a name prints as itself |
| PrinterProperties.VariableForm | src/printer.ts:166-183 | a variable prints as `const name = value;` |
| PrinterProperties.ReturnForm | src/printer.ts:223-228 | a return prints as `return value;` |
| PrinterProperties.OperationForm | src/printer.ts:230-238 | an operation prints as `left op right` |
| PrinterProperties.OperationGroupingLost | src/printer.ts:230-238 | two differently grouped nested operations print the same text |
| PrinterProperties.AppForm | src/printer.ts:216-221 | a call prints as `name(a, b, …)` |
| PrinterProperties.ConsoleForm | src/printer.ts:268-279 | a print prints as `console.log(a, b, …);` |
| PrinterProperties.BlockForm | src/printer.ts:201-204 | a block prints `{`, its expressions on lines indented two more columns, and `}` at the enclosing indentation |
| PrinterProperties.FunctionDocText | src/printer.ts:185-214 | the document built for a function means `function name(` + parameters + `) ` + body, for any parameter and body documents |
| PrinterProperties.FunctionForm | src/printer.ts:185-214 | a function prints as `function name(x, y) ` followed by its block, without types |
| PrinterProperties.IfDocText | src/printer.ts:240-266 | the document built for a conditional means `if (` + condition + `) ` + body, for any condition and body documents |
| PrinterProperties.IfForm | src/printer.ts:240-266 | a conditional prints as `if (condition) ` followed by its block |

## Left out

- src/repl.ts and vite.config.ts are not part of this model: they are console I/O and build configuration.
- folddoc (src/printer.ts:41-51) is never called, so it is not modelled.
- arrayEquals, objectIncludes, objectEquals, isNull and isNullish (src/utils.ts:50-123) are reflective comparisons of JavaScript values. They are not modelled. The `deepEqual` that the checker imports is not in utils.ts at all; the model uses Dafny's value equality where the checker calls it (src/checker.ts:199).
- Error messages: each thrown error becomes a `TypeError` or `ParseError` constructor, without its text. The catch in `check` (src/checker.ts:428-433) re-throws the same message, so it changes no outcome and is not modelled.
- Numbers are natural numbers. The lexer produces no others. JavaScript floating point and the formatting of non-integers are left out. Two consequences: `Number(number)` (src/lexer.ts:114) rounds a digit run above 2^53 to the nearest double, and `toString` (src/printer.ts:155) prints an integer of 1e21 or more in exponent form. Lexer.TakeNumber and PrinterProperties.NumberForm keep the exact value and every digit, so for numbers that large the model is exact where the program is not.
- Characters are Dafny characters, with no UTF-16 or Unicode behaviour. `isLetter` and `isDigit` are ASCII-only in the source as well.
- Call-stack depth of the recursive checker and parser is not modelled.
- Utils.Take: requires `n` to be at most the length of the string. Past the end, the source appends the text `undefined` for each missing character. The only callers compare the result with a keyword, and `StartsWith` gives the same answer there.
- Parser.Parser.ParseOne and the other parse methods state the position after a failure only through `Consume`. The source's position after an exception is unobservable, because the exception ends the parse.
- Lexer.TokenToString is not a round trip for type declarations and strings. A type declaration prints its capitalised tag and a string prints without quotes, so neither lexes back. FixedTokenRoundTrip and NumberRoundTrip state the round trip for the rest.
- LexerExamples.VariableCode: proved for any identifier and quote-free value rather than for the literal text of the test.
- CheckerExamples: the tests for "basic types", "boolean OPs", "math OPs", "function application" and "Return Statement" (tests/checker.ts:23-31, 47-88, 133-168, 295-313, 349-357) have no lemma of their own. Their outcomes follow from BasicTyping, ComparisonTyping, PlusTyping, ArithmeticTyping, AppTyping, DeclareTyping and ValueTyping.
- ParserExamples: the remaining parser tests (tests/parser.ts:28-204, 245-272) have no lemma of their own. Their shapes are covered by the rule lemmas and by ProgramRoundTrip.
- The high-order parser test (tests/parser.ts:274-512) is not modelled as the test expects. Its `Arrow` token is not part of `Token`, and neither src/lexer.ts nor src/parser.ts has one. `parseFunction` reads exactly one type keyword after a parameter's colon (src/parser.ts:68-71), so it rejects that test's parenthesised parameter type. ParserExamples.ParenthesizedParamType states this rejection.
- PrinterProperties.FunctionForm: stated only for non-empty parameter names. ParametersCut states what an empty name does.
- Parser.ParseOneF and the other grammar functions: their own contracts state only progress. The Dispatch, Rule and RoundTrip lemmas state what each one parses.

## Findings

| source | as written | input that shows it | evidently intended | confidence | as-written member | corrected member |
|---|---|---|---|---|---|---|
| src/checker.ts:18-27 | parameter types of two arrows are compared with `===`, by object identity | `(== f g)` for two separately declared functions `f(x: number): number` and `g(x: number): number`: their `number` parameter objects differ, so the arrows compare unequal and the comparison is a type mismatch | arrows with equal parameter types are equal, as they are for return types and in the call rule | medium, not executed | CheckerProperties.StrictEqualParamsByIdentity, CheckerProperties.IdentityRejectsEqualArrows | Checker.StrictEqualParams |
