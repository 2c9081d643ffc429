# loxi evaluator core, modelled in Dafny

This project models the evaluator side of `loxi`, a tree-walking interpreter for the Lox language written in Rust. The model covers four parts:

- **The token vocabulary** (`lex/token.rs`):
  - source `Location`s, with their derived order and their `[at line:column]` rendering;
  - the closed sets of punctuation, operators and keywords, with their two-way spelling tables (`Into` and `TryFrom`).
- **Runtime values** (`interp/value.rs`):
  - the `Value` union;
  - truthiness and the partial operators, each returning `None` when the operands have the wrong kinds;
  - type-name tags, `Clone` and `Display`.
- **Statements** (`parse/stmt.rs`):
  - `Stmt::execute`, given twice: once as a function from a scope stack and the output so far to an outcome (`Exec`, `ExecSeq`), and once as a method that updates an `Env` in place and is proved to follow that function (`Execute`);
  - the S-expression `Display` of statements.
- **The interpreter** (`interp/mod.rs`):
  - `RuntimeError` with its location accessor and its message text;
  - the `Interpreter` class, which owns one environment across `interpret` calls.

Modelling choices:

- Numbers are exact reals.
- The `Rodeo` string arena is a read-only map from handles to text. `Interned` states that distinct handles hold distinct text.
- Expressions are opaque. Evaluating one is a parameter `eval: (Expr, seq<Scope>) -> Result<Value, RuntimeError>`, and rendering one is a parameter `showExpr`.
- The text of a number is a parameter `fmt: real -> string`.
- Printing appends to an output string.
- The environment is a stack of scope maps, with the innermost scope last.

Files:

- `wrappers.dfy`: `Option` and `Result`.
- `numerals.dfy`: decimal text of naturals and its inverse.
- `token.dfy`: module `Tokens`.
- `value.dfy`: module `Values`.
- `errors.dfy`: module `RuntimeErrors`.
- `env.dfy`: module `Environment`.
- `stmt.dfy`: module `Statements`.
- `interpreter.dfy`: module `Interp`.

## Model

| member | source | states |
|---|---|---|
| Numerals.Decimal | loxi/src/lex/token.rs:21 | the `usize` `Display`: at least one digit, only digits, and no leading zero except for `0` itself |
| Numerals.DecimalRoundTrip | loxi/src/lex/token.rs:19-23 | the decimal text used for line and column numbers reads back as the same number |
| Numerals.DecimalInjective | loxi/src/lex/token.rs:19-23 | different numbers render differently |
| Tokens.CompareLocation | loxi/src/lex/token.rs:13-17 | the derived `Ord` of `Location`: `Equal` iff the locations are equal, `Less` iff the line is smaller, or the lines are equal and the column is smaller |
| Tokens.CompareLocationAntisymmetric | loxi/src/lex/token.rs:13-17 | `a < b` iff `b > a` |
| Tokens.CompareLocationTransitive | loxi/src/lex/token.rs:13-17 | the location order is transitive |
| Tokens.ShowLocation | loxi/src/lex/token.rs:19-23 | a rendered location starts with `[at ` and ends with `]` |
| Tokens.ParseShowLocation | loxi/src/lex/token.rs:19-23 | `[at line:column]` can be read back to the same location (the partner `ParseLocation`) |
| Tokens.ShowLocationInjective | loxi/src/lex/token.rs:19-23 | distinct locations render distinctly |
| Tokens.PunctuationChar | loxi/src/lex/token.rs:53-65 | `Into<char>`, one character per variant; its partner is `PunctuationRoundTrip` |
| Tokens.PunctuationFromChar | loxi/src/lex/token.rs:67-82 | a char is accepted iff it spells some punctuation, and then maps to a variant that spells it; anything else is `InvalidToken` |
| Tokens.PunctuationRoundTrip | loxi/src/lex/token.rs:53-82 | `try_from(into(p)) == Ok(p)` for every punctuation |
| Tokens.PunctuationCharInjective | loxi/src/lex/token.rs:53-64 | no two punctuation variants share a character |
| Tokens.OperatorSpelling | loxi/src/lex/token.rs:100-117 | `Into<&str>`, one spelling per operator; its partner is `OperatorRoundTrip` |
| Tokens.OperatorFromSpelling | loxi/src/lex/token.rs:119-139 | a string is accepted iff it is one of the twelve operator spellings; anything else is `InvalidToken` |
| Tokens.OperatorRoundTrip | loxi/src/lex/token.rs:100-139 | `try_from(into(op)) == Ok(op)` for every operator |
| Tokens.OperatorSpellingInjective | loxi/src/lex/token.rs:100-117 | no two operators share a spelling |
| Tokens.OperatorPrefixes | loxi/src/lex/token.rs:100-117 | every operator is 1 or 2 characters long; a 2-character one is a 1-character operator followed by `=` |
| Tokens.KeywordSpelling | loxi/src/lex/token.rs:161-182 | `Into<&str>`, one spelling per keyword; its partner is `KeywordRoundTrip` |
| Tokens.KeywordFromSpelling | loxi/src/lex/token.rs:184-208 | a string is accepted iff it is one of the sixteen keyword spellings; anything else is `InvalidToken` |
| Tokens.KeywordRoundTrip | loxi/src/lex/token.rs:161-208 | `try_from(into(k)) == Ok(k)` for every keyword |
| Tokens.KeywordSpellingInjective | loxi/src/lex/token.rs:161-182 | no two keywords share a spelling |
| Tokens.KeywordIsWord | loxi/src/lex/token.rs:161-182 | every keyword is a non-empty run of lower-case letters |
| Values.Truthiness | loxi/src/interp/value.rs:64-71 | falsy exactly for `nil` and `false` |
| Values.Not | loxi/src/interp/value.rs:73-75 | total; yields a `Bool` that is true exactly for `nil` and `false` |
| Values.NotNot | loxi/src/interp/value.rs:73-75 | `!!v` is the truthiness of `v` |
| Values.Minus | loxi/src/interp/value.rs:77-82 | defined exactly for numbers; the result is the additive inverse |
| Values.MinusInvolution | loxi/src/interp/value.rs:77-82 | negating a number twice gives it back |
| Values.Add | loxi/src/interp/value.rs:84-100 | defined exactly for number+number (the sum) and `String` + either string kind (the concatenated text, a literal resolved in the arena); `None` otherwise, including a literal on the left |
| Values.Sub | loxi/src/interp/value.rs:102-107 | defined exactly for two numbers, yielding the number that added to `b` gives `a` |
| Values.Mul | loxi/src/interp/value.rs:109-114 | defined exactly for two numbers, yielding their product |
| Values.Div | loxi/src/interp/value.rs:116-121 | defined exactly for two numbers, yielding the number that multiplied by `b` gives `a` |
| Values.SubUndoesAdd | loxi/src/interp/value.rs:84-107 | `(a + b) - b == a` on numbers |
| Values.DivUndoesMul | loxi/src/interp/value.rs:109-121 | `(a * b) / b == a` for a non-zero number `b` |
| Values.Eq | loxi/src/interp/value.rs:123-141 | always `Some(Bool)` outside `Object == Object`; equal values have the same type tag, so values of different kinds compare false |
| Values.EqIsSameValue | loxi/src/interp/value.rs:123-141 | with an interned arena, `==` holds iff the values have the same kind and content, strings comparing by text across both representations |
| Values.EqSymmetric | loxi/src/interp/value.rs:123-141 | `a == b` and `b == a` give the same result |
| Values.Neq | loxi/src/interp/value.rs:143-145 | always a `Bool`, the negation of `==` |
| Values.Gt | loxi/src/interp/value.rs:147-152 | defined exactly for two numbers, yielding a `Bool` that is true iff `a > b` |
| Values.Ge | loxi/src/interp/value.rs:154-159 | defined exactly for two numbers, yielding a `Bool` that is true iff `a >= b` |
| Values.Lt | loxi/src/interp/value.rs:161-166 | defined exactly for two numbers, yielding a `Bool` that is true iff `a < b` |
| Values.Le | loxi/src/interp/value.rs:168-173 | defined exactly for two numbers, yielding a `Bool` that is true iff `a <= b` |
| Values.ComparisonsAgree | loxi/src/interp/value.rs:147-173 | `<` mirrors `>` and `<=` mirrors `>=`; strict implies non-strict; `<=` and `>=` together mean `==` |
| Values.Name | loxi/src/interp/value.rs:175-186 | the tag is one of six type names: `<nil>`, `<bool>`, `<number>` and `<object>` exactly for their kinds, `<string>` exactly for both string kinds, `<function>` exactly for both function kinds |
| Values.NameIdentifiesType | loxi/src/interp/value.rs:175-186 | two values share a tag iff they have the same Lox type; both string kinds share `<string>` and both function kinds share `<function>` |
| Values.Clone | loxi/src/interp/value.rs:189-202 | a clone equals the original |
| Values.Render | loxi/src/interp/value.rs:223-240 | `Display`, per kind: `nil`, `true`/`false`, the number's text, the string itself, `<object>`, a function's name handle in the `<fun spur…>` tag, and a literal's handle (not its text) in the `StringLiteral(spur…)` tag |
| Values.RenderKeywordValues | loxi/src/interp/value.rs:223-227 | `nil`, `true` and `false` print as their keywords |
| Values.AddLiteralOnLeftUndefined | loxi/src/interp/value.rs:84-100 | a literal on the left of `+` is undefined, while the same text as a `String` concatenates |
| Values.AddText | loxi/src/interp/value.rs:23-28 | `+` with both string representations treated alike: defined iff both operands are numbers or both are strings |
| Values.AddTextExtendsAdd | loxi/src/interp/value.rs:84-100 | `AddText` agrees with `add` wherever `add` is defined |
| Values.AddTextRespectsEq | loxi/src/interp/value.rs:123-141 | swapping a string operand of `AddText` for an `==`-equal one gives the same result |
| RuntimeErrors.UnaryOpSpelling | loxi/src/interp/mod.rs:16-17 | a unary operator in an error message is written as the spelling of its own lexer operator (`!` or `-`), which reads back as that operator |
| RuntimeErrors.BinaryOpSpelling | loxi/src/interp/mod.rs:13-14 | a binary operator in an error message is written as the spelling of its own lexer operator, which reads back as that operator |
| RuntimeErrors.OpSpellingsInjective | loxi/src/interp/mod.rs:13-17 | distinct operators are written differently in error messages |
| RuntimeErrors.Loc | loxi/src/interp/mod.rs:23-31 | `loc()` is the location stored in each of the three variants |
| RuntimeErrors.Message | loxi/src/interp/mod.rs:11-21 | the full `#[error]` text of each variant: the rendered location, ` RuntimeError: `, then `Invalid binary operation '<op>' between '<left>' and '<right>'`, `Invalid unary operation '<op>' on '<operand>'` or `Trying to access undefined variable: '<name>'` |
| RuntimeErrors.MessageLocationReadable | loxi/src/interp/mod.rs:11-21 | every message starts with the error's rendered location, which reads back as `loc()` |
| Environment.LookupIn | loxi/src/parse/stmt.rs:61 | `Env` lookup (its source, `interp/env.rs`, is not part of this model) over the scope chain that `child()` sets up here: `None` iff no scope binds the name, otherwise the innermost binding wins |
| Environment.DefineIn | loxi/src/parse/stmt.rs:58 | `define` keeps the depth and changes only the innermost scope |
| Environment.LookupAfterDefine | loxi/src/parse/stmt.rs:58 | after `define`, the name maps to the new value and every other name is unchanged |
| Environment.LookupShadows | loxi/src/parse/stmt.rs:60-65 | a binding in the child scope hides the enclosing ones |
| Environment.Env.constructor | loxi/src/interp/mod.rs:40 | `Env::new` gives a single empty global scope |
| Environment.Env.Define | loxi/src/parse/stmt.rs:58 | the in-place `define` leaves the scope stack `DefineIn` describes |
| Environment.Env.PushChild | loxi/src/parse/stmt.rs:61 | `child()` adds an empty innermost scope |
| Environment.Env.PopChild | loxi/src/parse/stmt.rs:60-65 | the child scope is dropped when the block ends |
| Statements.Exec | loxi/src/parse/stmt.rs:36-82 | executing a statement keeps the stack depth, changes only the innermost scope, and only appends output |
| Statements.ExecSeq | loxi/src/parse/stmt.rs:62-64 | statements in order with `?`; the same three guarantees |
| Statements.ExpressionDiscards | loxi/src/parse/stmt.rs:38 | an expression statement changes nothing and reports only the evaluation error |
| Statements.PrintAppendsLine | loxi/src/parse/stmt.rs:39 | `print` appends the value's `Display` text and a newline, and leaves the scopes alone; a failing expression returns its error, prints nothing and changes nothing |
| Statements.VarWithoutInitBindsNil | loxi/src/parse/stmt.rs:52-58 | `var x;` succeeds, binds `x` to `nil`, leaves other names alone and prints nothing |
| Statements.VarWithInit | loxi/src/parse/stmt.rs:52-58 | `var x = e;` returns the error of `e` without binding, or binds `x` to the value of `e`, leaving other names and the output unchanged |
| Statements.BlockLeavesScopes | loxi/src/parse/stmt.rs:60-65 | after a block, error or not, the scope stack is the one before it |
| Statements.ExecSeqAppend | loxi/src/parse/stmt.rs:62-64 | running `a + b` is running `a`, then `b` only if `a` succeeded |
| Statements.ExecSeqSingle | loxi/src/parse/stmt.rs:62-64 | a one-statement sequence means that statement |
| Statements.ExecSeqStopsAtFirstError | loxi/src/parse/stmt.rs:62-64 | the first failing statement decides the outcome; later ones are skipped, effects before it remain |
| Statements.ExecSeqSnoc | loxi/src/parse/stmt.rs:62-64 | a sequence succeeds iff each statement succeeds in turn |
| Statements.BlockStopsAtFirstError | loxi/src/parse/stmt.rs:60-65 | a block returns the error of its first failing statement |
| Statements.IfChoosesBranch | loxi/src/parse/stmt.rs:66-78 | a failing condition runs no branch; a truthy one runs `then`, a falsy one `otherwise` or nothing; branches run in the same scope |
| Statements.Execute | loxi/src/parse/stmt.rs:36-82 | the in-place execution against `Env` ends in exactly the state, output and status `Exec` gives |
| Statements.Show | loxi/src/parse/stmt.rs:85-112 | an expression statement renders as its expression; the others as `(print e)`, `(var n e)`, `(var n nil)`, `(block` + body + `)`, `(if c t)` and `(if-else c t o)`, each a parenthesised form |
| Statements.ShowEach | loxi/src/parse/stmt.rs:94-100 | a block body renders empty exactly when the block is empty, and otherwise starts with a space |
| Statements.ShowEachAppend | loxi/src/parse/stmt.rs:96-98 | the body renders statement by statement in order: the rendering of `a + b` is that of `a` followed by that of `b` |
| Statements.ShowEachSingle | loxi/src/parse/stmt.rs:96-98 | each statement of a body renders as a space and its own rendering |
| Statements.ShowBalanced | loxi/src/parse/stmt.rs:85-112 | if expressions render with balanced parentheses, so does every statement |
| Statements.ShowEachBalanced | loxi/src/parse/stmt.rs:94-100 | the body of a rendered block has balanced parentheses |
| Interp.Interpreter.constructor | loxi/src/interp/mod.rs:37-42 | `new()` creates a fresh environment with one empty global scope |
| Interp.Interpreter.Interpret | loxi/src/interp/mod.rs:44-50 | runs the statements in order against the owned environment, stopping at the first error; the final state and status are those `ExecSeq` gives |
| Interp.ProgramConcatenation | loxi/src/interp/mod.rs:46-48 | a program made of `p`'s statements then `q`'s runs `p`, then `q` from `p`'s state, only if `p` succeeded |
| Interp.InterpretInTurn | loxi/src/interp/mod.rs:33-50 | two `interpret` calls on one interpreter: the second runs in the environment the first left; after a successful first call the pair ends as the concatenated program would |
| Interp.GlobalDeclarationPersists | loxi/src/interp/mod.rs:44-50 | after a successful program, a top-level `var x;` leaves `x` bound to `nil` in the single global scope |
| Interp.ExecPair | loxi/src/parse/stmt.rs:62-64 | two statements in a row, the first succeeding, end where the second ends when started from the first's state |
| Interp.ShadowingExample | loxi/src/parse/stmt.rs:52-65 | `var a = 1; { var a = 2; print a; } print a;` prints `2` then `1` and leaves only the global `a = 1` |

## Left out

- Floating point: `Number` is an exact real. NaN, infinities, rounding and the float-to-text conversion (`fmt`) are not modelled.
- Div: requires a non-zero divisor when both operands are numbers, because division by zero has no exact-real meaning. The source yields an infinity or NaN there.
- `Rc` sharing and reference counts: values are immutable data, so `Clone` is the identity.
- The payloads of `Object`, `Function` and `NativeFunction` are not modelled. These are opaque identities, and a function is known only by its name handle.
- `Eq` on `Object`/`Object` is not modelled. It panics (`unimplemented!`), so it sits behind a precondition.
- `lasso::Rodeo` internals: the arena is a given read-only map. Operators that resolve a literal require its handle to be in the arena.
- The `Debug` implementations of `Value`, `Stmt` and `TokenValue` are not modelled. Neither is the `Display` of `Token`, which is built on `Debug`. Both are diagnostic text.
- RuntimeErrors.UnaryOpSpelling: how `token::UnaryOp` is displayed is assumed to be the spelling of its lexer operator, because `parse/token.rs` is not part of this model.
- RuntimeErrors.BinaryOpSpelling: how `token::BinaryOp` is displayed is assumed to be the spelling of its lexer operator, for the same reason.
- `util::Location`, the location type that statements and runtime errors carry, is assumed to be the lexer's `Location` with the same `[at line:column]` `Display`. `crate::util` is not part of this model.
- `Expr`, expression evaluation and `parse/token.rs` (`BinaryOp`, `UnaryOp`) are not part of this model. Evaluation and expression display are parameters, and the operator enums carry only their lexer operators.
- `interp/env.rs` is not part of this model. `Env` is a stack of scope maps whose `child()` pushes and whose block exit pops. Sharing the parent through a borrow is not modelled.
- Standard output is not modelled. `print` appends to a string.
- The lexer, the parser, `lib.rs` (the file reader, the REPL and coloured diagnostics) and `test.py` are not part of this model.

## Findings

| source | as written | input that shows it | evidently intended | confidence | as-written member | corrected member |
|---|---|---|---|---|---|---|
| loxi/src/interp/value.rs:84-100 | `add` matches `String + String` and `String + StringLiteral` only, so a `StringLiteral` on the left gives `None` | `StringLiteral(h) + String("x")` is `None`, while `String(arena[h]) + String("x")` is `Some`; value.rs:26-27 says the two string kinds are not distinguished in Lox | any two strings concatenate, whichever representation each uses | medium, not executed (the expression evaluator is not part of this model and might convert literals first) | Values.AddLiteralOnLeftUndefined | Values.AddText |
