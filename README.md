# Expression evaluator: scanner and recursive-descent evaluator

The system reads one line of arithmetic, such as `x = 2 + 3 * min(4, 5)`, and
prints its value. It has two parts, and both are modelled here:

- **The scanner** (`Tokenizer`, tokenizer.py).
  - It keeps a cursor into the line. Each call of `get_next_token` moves the cursor and returns one token.
  - A token is a one-character operator or bracket, an identifier, a decimal number, or end of line.
  - Identifiers and numbers are recognised by two small explicit-state machines.
  - Unrecognised characters and a `.` without a following digit are reported, and the scan goes on.
- **The evaluator** (`Parser`, parser.py).
  - Its grammar has the levels `Expr`, `AddExpr`, `MulExpr`, `UnaryExpr` and `PrimaryExpr`.
  - It computes the value while parsing, without building a tree.
  - It reads and writes a module-wide symbol table `sym_tab` of variables and built-in functions.
  - Syntax errors are logged, and parsing continues with the value 0.

## How the model is organised

- **`Wrappers`**: `Option` and `Result`.
- **`Lexer`**: scanner.
  - `Next(s, pos)` is the specification. It is a function giving what one call of `get_next_token` does when the cursor stands at `pos`: the token, the new cursor, and the diagnostics printed on the way, or the `IndexError` the call raises.
  - The class `Tokenizer` is the scanner itself. Its fields are the line `s`, the mutable cursor `pos` and the printed diagnostics `diags`.
  - `NextToken`, `ScanIdentifier` and `ScanNumber` are loops over the cursor. Each is proved to do exactly what the specification functions say.
- **`LexerFacts`**: what successive calls yield.
  - `Pulls(s, pos)` is the stream of scans up to the first end of line, or up to the raising call.
  - Lemmas about the stream: it is well formed, in column order, and every call it records is the one the scanner makes.
- **`LexerExamples`**: the demonstration loop of tokenizer.py, and concrete lines.
- **`Evaluation`**: each production of parser.py as a function.
  - Its arguments are the token stream and a state: how many tokens have been pulled, the symbol table, and the error log.
  - A Python exception becomes an `Err` (`EvalFault`).
- **`RecursiveDescent`**: the class `Parser`.
  - It owns a `Tokenizer`, reassigns its current token `tok`, writes `symtab` and appends to `diags`.
  - Every method is proved to return, and leave behind, what a function of `Evaluation` gives for the state before the call.
  - Most methods have a function of the same name. The exceptions are `Consume`, specified by `Evaluation.Advance`, and `Arguments`, specified by `Evaluation.ArgLoop`.
- **`EvaluationFacts`**: properties of whole evaluations.
  - No `KeyError` can arise.
  - Bound names stay bound, and the log only grows.
  - The table changes only through `=`.
  - The operator loops run to the first token that is not an operator.
  - The arithmetic matches Python's.
- **`Reference`**: an independent meaning for the evaluator's arithmetic.
  - Expression trees `Ast` have a value `Value`, computed operands first.
  - `Render` spells a tree as tokens, bracketing an operand only where precedence and left association demand it.
  - Lemmas show that the evaluator, run on the tokens of any tree followed by a token that is not a binary operator, yields the tree's value and consumes exactly those tokens.
  - Further lemmas cover a group without its `)`, and calls of built-in functions on rendered arguments: bound, unbound, and without their `)`.
- **`ParserExamples`**: concrete lines evaluated end to end, from the characters to the value.

### Where the code's behaviour differs from its documented intent

The model follows the code as written. In particular:

- **Last character.** The character at the last index of the line never starts a token. `get_next_token` reports end of line there (tokenizer.py:48-49), so `2+3*4` evaluates to 2, with a logged error. A line ending in whitespace or a newline is unaffected.
- **Identifiers.** `_scan_identifier` ends with the cursor one past the identifier, and `get_next_token` then moves it once more. So the character right after an identifier is skipped: in `x*2` the `*` is lost, and `f(1)` reads `f` as a variable.
- **Numbers at the end of the line.** The number machine only references its range test in the integer and fraction states, and never calls it (tokenizer.py:136, 160). A number whose digits (and an optional `.`) run to the end of the line therefore indexes past it, and the call raises `IndexError`.
- **Embedded newline.** A newline inside the line is reported as end of line, but only for that one call. The next call scans on after it.
- **Division by zero.** Division or remainder by zero raises `ZeroDivisionError` rather than giving an infinity. It is modelled as `Err(ZeroDivision)`.
- **Assignment.** The grammar comment at parser.py:19 writes `:=`, but the code assigns with `=` (parser.py:157).
- **Assignment of a non-expression.** In `x = * 2 + 5 ` the right-hand side does not start an expression. `_Expr` logs the error and returns 0, so `x` is bound to 0. The `*` is then taken by the enclosing `_MulExpr` loop, and the line prints 0 * 2 + 5 = 5. So the printed value and the bound value differ.
- **Misused names.**
  - A variable that holds a number and is then called raises a `TypeError` in Python. It is modelled as `Err(NotCallable(name))`.
  - A built-in function read as a variable yields the function object, not a number. It is modelled as `Err(NotANumber(name))`.

Character classes (`isspace`, `isalpha`, `isdigit`, `isalnum`) are their ASCII
members. Numbers are exact reals, and `%` is Python's floored remainder.

## Model

| member | source | states |
|---|---|---|
| Lexer.CharClasses | tokenizer.py:45-106 | The ASCII stand-ins for `isspace` and `isdigit` hold of exactly the characters Python lists for them. Letters, digits and whitespace are disjoint, and neither `_` nor `.` is alphanumeric. |
| Lexer.IsSpace | tokenizer.py:45 | `str.isspace` on ASCII: the tab, line feed, vertical tab, form feed, carriage return, the four information separators and the blank. No contract of its own; `Lexer.CharClasses` states it. |
| Lexer.IsAlpha | tokenizer.py:78 | `str.isalpha` on ASCII: the 52 letters. No contract of its own; `Lexer.CharClasses` states that no letter is a digit or whitespace. |
| Lexer.IsDigit | tokenizer.py:81 | `str.isdigit` on ASCII: `0` to `9`. No contract of its own; `Lexer.CharClasses` states it. |
| Lexer.IsAlnum | tokenizer.py:106 | `str.isalnum` on ASCII: a letter or a digit. No contract of its own; `Lexer.CharClasses` states that it excludes whitespace, `_` and `.`. |
| Lexer.Next | tokenizer.py:38-88 | What one call of `get_next_token` returns from a given cursor. No contract of its own: `Lexer.NextSound`, `LexerFacts.NextAdvances` and `LexerFacts.TokenSpan` state what it guarantees, and `Lexer.Tokenizer.NextToken` is proved to do exactly what it says. |
| Lexer.Tokenizer.constructor | tokenizer.py:33-36 | A new scanner holds the line, with the cursor before its first character and nothing printed. |
| Lexer.Tokenizer.NextToken | tokenizer.py:38-88 | One call returns exactly the token of `Next` from the old cursor, moves the cursor where `Next` says and appends the diagnostics it prints; or it raises the `IndexError` `Next` predicts. |
| Lexer.Tokenizer.ScanIdentifier | tokenizer.py:90-117 | The machine returns the maximal run of identifier characters from the cursor, as an identifier token at the start column, and leaves the cursor on the first character after it. |
| Lexer.Tokenizer.ScanNumber | tokenizer.py:119-172 | The machine ends as `ScanNumberSpec` says. It accepts a numeral with the cursor on its last digit, or it prints "digit expected after '.'" at the offending 1-based column and returns no token, or it raises `IndexError` at the end of the line. |
| Lexer.IdentEnd | tokenizer.py:99-117 | Where the identifier machine stops: at or after its start, and never beyond the end of the line. `Lexer.IdentEndSpan` shows it is the end of the maximal run. |
| Lexer.IdentEndSpan | tokenizer.py:90-117 | The identifier machine stops at the end of the maximal run of letters, digits and underscores. |
| Lexer.DigitsEndSpan | tokenizer.py:135-167 | The integer and fraction states stop at the end of the maximal run of digits. |
| Lexer.IntegerFrom | tokenizer.py:135-147 | State 1 of the number machine. An accepted number ends before the last index. A rejection lies at least one character on, just after a `.`, on a non-digit. Running off the end happens at the length of the line. |
| Lexer.AfterDotFrom | tokenizer.py:149-156 | State 2, just after a `.`. It accepts only after a digit, rejects exactly at the character it stands on when that is not a digit, and otherwise runs off the end. |
| Lexer.FractionFrom | tokenizer.py:159-167 | State 3, in the fraction. It never rejects: it accepts before the last index or runs off the end of the line. |
| Lexer.ScanNumberSpec | tokenizer.py:119-172 | The machine's outcome lies in range: an accepted number ends before the last index, a malformed one is caught at least two characters on, and running off the end happens at the length of the line. |
| Lexer.ScanNumberShape | tokenizer.py:119-172 | An accepted lexeme is `integer` or `integer "." integer`, and is maximal. A rejection happens exactly at a `.` not followed by a digit. The machine runs off the end only when nothing but digits and `.` lead up to it. |
| Lexer.NextSound | tokenizer.py:38-88 | Every token returned is never `TOKERR` and starts after the old cursor. A real token is the exact text at its column and never starts at the last index. End of line is reported only at or past the last index or on a newline. Diagnostics lie between the old cursor and the token. |
| LexerFacts.Pulls | tokenizer.py:180-184 | The results of successive calls, up to the first end of line or the call that raises. The stream always ends in an end of line unless a call raised, and holds at least one scan unless the first call raised. |
| LexerFacts.NextAdvances | tokenizer.py:38-88 | Every call moves the cursor forward and never beyond one past the end of the line; a real token leaves it inside the line. |
| LexerFacts.TokenSpan | tokenizer.py:38-88 | A returned token lies after the old cursor and ends no later than one past the new cursor. |
| LexerFacts.PullsFits | tokenizer.py:38-88 | Successive calls yield real tokens that fit the line, followed by exactly one end of line, or by nothing when a call raised. |
| LexerFacts.PullsAt | tokenizer.py:38-88 | The `k`-th call, made from the cursor the previous calls left, returns the `k`-th scan of the stream, or raises where the stream records a fault. |
| LexerFacts.PullsFollow | tokenizer.py:38-88 | The same for every `k` at once: the stream is exactly what the scanner yields call after call. |
| LexerFacts.PullsOrdered | tokenizer.py:38-88 | The tokens of one line come in column order without overlapping, all after the starting cursor. |
| LexerFacts.Chain | tokenizer.py:38-88 | A list of calls, each made from the cursor its predecessor left and ending at the first end of line, is the stream of the line. |
| LexerFacts.EolAtEnd | tokenizer.py:42-43 | At or past the end of the line every call reports end of line, one column further on each time. |
| LexerFacts.LastCharEnds | tokenizer.py:45-49 | The call that reaches the last character reports end of line there, or one column on when that character is whitespace. |
| LexerFacts.NewlineOnce | tokenizer.py:42-43 | An embedded newline ends the line for one call only; the next call scans on after it. |
| LexerExamples.Tokens | tokenizer.py:178-184 | The demonstration loop collects exactly the tokens of the stream before its end of line, in order, or stops with the fault of the call that raised. |
| LexerExamples.Pull | tokenizer.py:180-184 | The `k`-th call of the demonstration loop returns the `k`-th token of the stream and moves the cursor past it, or raises the stream's fault when the stream has no `k`-th scan. |
| LexerExamples.DemoStream | tokenizer.py:178 | The demonstration line scans into eighteen scans, the last an end of line at its last index (the `?` there is never reported). |
| LexerExamples.Demonstration | tokenizer.py:178-184 | The demonstration yields seventeen tokens, including `min` at column 49 and `)` at column 60. |
| LexerExamples.NewlineInLine | tokenizer.py:42-43 | `"\n+ "` scans as end of line, then `+`, then end of line again. |
| LexerExamples.LastDigitLost | tokenizer.py:48-49 | `2+3` scans as `2`, `+`, end of line: the final digit is dropped. |
| LexerExamples.NumberAtEnd | tokenizer.py:135-138 | `45` raises `IndexError` at index 2. |
| Evaluation.Lookup | parser.py:145 | A dictionary lookup fails exactly when the name is not bound. |
| Evaluation.Advance | parser.py:34 | Pulling a token keeps the state inside a terminated stream. |
| Evaluation.NumeralValue | parser.py:119 | `float(lexeme)` as an exact real. No contract of its own; `EvaluationFacts.NumeralWhole` and `EvaluationFacts.FractionBelowOne` state its whole and fractional parts. |
| Evaluation.Sum | parser.py:60 | `lval + rval` or `lval - rval`. No contract of its own; `Reference.ApplyArith` ties it to the reference `+` and `-`. |
| Evaluation.Signed | parser.py:99 | `+` keeps the value and `-` negates it. No contract of its own; `Reference.UnarySign` ties it to the reference value of a signed operand. |
| Evaluation.PyMod | parser.py:81 | The remainder fails exactly for a zero divisor. |
| Evaluation.Arith | parser.py:76-81 | A multiplicative step fails exactly for `/` or `%` by zero, and then with `ZeroDivisionError`. |
| Evaluation.Expr | parser.py:37-49 | `_Expr` only consumes tokens and leaves its current token inside the stream. |
| Evaluation.AddExpr | parser.py:50-63 | The same for `_AddExpr`. Its value on the tokens of any tree is fixed by `Reference.AddRender`. |
| Evaluation.AddLoop | parser.py:57-61 | The same for the loop of `_AddExpr`. Its rounds are fixed by `Reference.AddRight`. |
| Evaluation.MulExpr | parser.py:65-84 | The same for `_MulExpr`. Its value on the tokens of any tree is fixed by `Reference.MulRender`. |
| Evaluation.MulLoop | parser.py:72-82 | The same for the loop of `_MulExpr`. Its rounds are fixed by `Reference.MulRight`. |
| Evaluation.UnaryExpr | parser.py:86-106 | The same for `_UnaryExpr`. On a token that starts neither a primary nor a sign, `EvaluationFacts.UnaryInvalidStart` fixes its outcome; on rendered operands, `Reference.UnaryRender` does. |
| Evaluation.PrimaryExpr | parser.py:108-180 | The same for `_PrimaryExpr`. |
| Evaluation.Group | parser.py:171-177 | The same for a parenthesised expression. `Reference.UnaryGroup` fixes its outcome when the `)` follows, and `Reference.GroupUnclosed` when it is missing. |
| Evaluation.Named | parser.py:129-169 | The same for what follows an identifier. |
| Evaluation.Call | parser.py:131-155 | The same for a call's argument list and closing bracket. `Reference.CallArgsRender` fixes its outcome on rendered arguments. |
| Evaluation.ArgLoop | parser.py:137-140 | The same for the loop over further arguments. `Reference.ArgLoopRender` fixes its outcome on rendered arguments. |
| Evaluation.CallEnd | parser.py:142-169 | The same for the end of a call. `Reference.CallApplies`, `Reference.CallUndefined` and `Reference.CallUnclosed` fix its three outcomes. |
| Evaluation.VarRead | parser.py:164-169 | The same for a variable read. `EvaluationFacts.ExprReads` and `EvaluationFacts.ExprUnbound` fix its outcome for a bound number and for an unbound name. |
| Evaluation.Parse | parser.py:33-35 | `parse` pulls the first token and evaluates one expression. It stops on a token inside the stream, and raises the scanner's fault when the very first call raises. |
| RecursiveDescent.Parser.constructor | parser.py:30-31 | A new parser owns a fresh scanner over the line, has pulled nothing, and holds the given symbol table and an empty log. |
| RecursiveDescent.Parser.Consume | parser.py:34 | Reassigning the current token pulls exactly the next token of the stream, or raises the scanner's fault. |
| RecursiveDescent.Parser.Parse | parser.py:33-35 | `parse` returns the value `Evaluation.Parse` gives and leaves the table and log it gives, or raises its fault; the stream is terminated. |
| RecursiveDescent.Parser.Expr | parser.py:37-49 | `_Expr` returns and leaves exactly what `Evaluation.Expr` says: `AddExpr` for a token of the first set, otherwise 0 with "not a valid start" logged. |
| RecursiveDescent.Parser.AddExpr | parser.py:50-63 | The loop of `_AddExpr` computes the left fold that `Evaluation.AddExpr` describes. |
| RecursiveDescent.Parser.MulExpr | parser.py:65-84 | The loop of `_MulExpr` computes the left fold that `Evaluation.MulExpr` describes, including its zero-division fault. |
| RecursiveDescent.Parser.UnaryExpr | parser.py:86-106 | `_UnaryExpr` agrees with `Evaluation.UnaryExpr`: a primary, a signed unary, or 0 with "invalid start of a unary expression" logged. |
| RecursiveDescent.Parser.PrimaryExpr | parser.py:108-180 | `_PrimaryExpr` agrees with `Evaluation.PrimaryExpr` for a number, an identifier, a group, or anything else (0). |
| RecursiveDescent.Parser.Group | parser.py:171-177 | A parenthesised expression agrees with `Evaluation.Group`, logging a missing `)`. |
| RecursiveDescent.Parser.Named | parser.py:129-169 | After an identifier the parser agrees with `Evaluation.Named`: a call, an assignment that writes the table, or a variable read. |
| RecursiveDescent.Parser.Call | parser.py:131-155 | A call agrees with `Evaluation.Call`. |
| RecursiveDescent.Parser.Arguments | parser.py:137-140 | The loop over `, Expr` appends every argument value in order, as `Evaluation.ArgLoop` says. |
| RecursiveDescent.Parser.CallEnd | parser.py:142-169 | The end of a call agrees with `Evaluation.CallEnd`: it applies a defined function, logs an undefined one, or logs a missing `)` and falls back to a variable read. |
| RecursiveDescent.Parser.VarRead | parser.py:164-169 | A variable read agrees with `Evaluation.VarRead`: the bound number, or 0 with "not defined" logged. |
| RecursiveDescent.Interpret | parser.py:182-188 | One line of the read-evaluate loop returns the value of `Evaluation.Parse` on the line's stream, and the table and log it leaves. |
| EvaluationFacts.ExprSafe | parser.py:37-49 | `_Expr` never raises `KeyError`. Its final state only consumes tokens, keeps every bound name bound and only appends to the log. It leaves the table unchanged when no `=` lies ahead. |
| EvaluationFacts.AddExprSafe | parser.py:50-63 | The same for `_AddExpr`. |
| EvaluationFacts.AddLoopSafe | parser.py:57-61 | The same for the loop of `_AddExpr`. |
| EvaluationFacts.MulExprSafe | parser.py:65-84 | The same for `_MulExpr`. |
| EvaluationFacts.MulLoopSafe | parser.py:72-82 | The same for the loop of `_MulExpr`. |
| EvaluationFacts.UnaryExprSafe | parser.py:86-106 | The same for `_UnaryExpr`. |
| EvaluationFacts.PrimaryExprSafe | parser.py:108-180 | The same for `_PrimaryExpr`. |
| EvaluationFacts.GroupSafe | parser.py:171-177 | The same for a parenthesised expression. |
| EvaluationFacts.NamedSafe | parser.py:126-169 | The same after an identifier, given that a name seen bound was bound then. |
| EvaluationFacts.CallSafe | parser.py:131-155 | The same for a call. |
| EvaluationFacts.ArgLoopSafe | parser.py:137-140 | The same for the argument loop. |
| EvaluationFacts.CallEndSafe | parser.py:142-169 | The same for the end of a call: `sym_tab[name]` finds a name that was bound when it was read. |
| EvaluationFacts.VarReadSafe | parser.py:164-169 | The same for a variable read. |
| EvaluationFacts.ParseSafe | parser.py:33-35 | `parse` never raises `KeyError`. Bound names stay bound, logged errors are never taken back, and a line without `=` leaves the table as it was. |
| EvaluationFacts.MulLoopStops | parser.py:72 | The loop of `_MulExpr` ends only on a token that is not `*`, `/` or `%`. |
| EvaluationFacts.AddLoopStops | parser.py:57 | The loop of `_AddExpr` ends only on a token that is not an additive or multiplicative operator. |
| EvaluationFacts.MulExprStops | parser.py:65-84 | `_MulExpr` returns on a token that is not a multiplicative operator. |
| EvaluationFacts.AddExprStops | parser.py:50-63 | `_AddExpr` returns on a token that is no binary operator: an operator after a complete term is always taken. |
| EvaluationFacts.ParseInvalidStart | parser.py:42-49 | A line not starting an expression evaluates to 0. The error is logged at the first token's 1-based column, nothing more is pulled and the table is unchanged. |
| EvaluationFacts.PrimaryAssigns | parser.py:157-162 | `name = Expr` binds `name` to the value it returns and consumes at least two tokens, nested assignments such as `x = y = 3` included. When the right-hand side holds no further `=`, every other entry is unchanged. When it starts an expression, it ends on a token that is no binary operator. |
| EvaluationFacts.ExprAssigns | parser.py:157-162 | An assignment whose right-hand side starts an expression is a whole `_Expr`: `_Expr` from the name returns exactly what `_PrimaryExpr` does. |
| EvaluationFacts.ChainedAssigns | parser.py:157-161 | `x = y = Expr`, with the innermost right-hand side starting an expression, binds both `y` and `x` to the value it returns. |
| EvaluationFacts.ParseAssigns | parser.py:157-162 | A line `name = Expr` leaves `name` bound. When the right-hand side starts an expression, `name` is bound to the line's value, nested assignments included. When the right-hand side holds no further `=`, `name` is bound to a number and the rest of the table is as it was. |
| EvaluationFacts.ExprReads | parser.py:164-169 | `_Expr` on a name bound to `Num(v)`, followed by a token that is not `(`, `=` or a binary operator, returns `v` and consumes only the name. The table and the log are untouched. |
| EvaluationFacts.ExprUnbound | parser.py:164-169 | `_Expr` on an unbound name, followed by a token that is not `(`, `=` or a binary operator, returns 0 and consumes only the name. The table is untouched, and the log gains exactly "not defined" at the name's 1-based column. |
| EvaluationFacts.UnaryInvalidStart | parser.py:86-106 | `_UnaryExpr` on a token that starts neither a primary nor a signed expression returns 0 and consumes nothing. The table is untouched, and the log gains exactly "invalid start of a unary expression" at the token's 1-based column. |
| EvaluationFacts.MissingDivisor | parser.py:72-82 | An operator `*`, `/` or `%` followed by a token that starts no operand: the operand counts as 0 with its error logged and the token left in place. `*` goes on with 0, while `/` and `%` raise `ZeroDivisionError`. |
| EvaluationFacts.ParseReads | parser.py:33-35 | A line that reads a name bound to `Num(v)` evaluates to `v` and leaves the table and the log as they were. |
| EvaluationFacts.WriteThenRead | parser.py:157-169 | Read after write: after a line `name = Expr` whose right-hand side starts an expression (a chained `x = y = 3` included), a line reading `name` evaluates to the value the first line returned. |
| EvaluationFacts.PyModRange | parser.py:81 | Python's `%`: the remainder has the divisor's sign and is smaller than it in magnitude. It differs from the dividend by the floored quotient times the divisor. |
| EvaluationFacts.DivideExact | parser.py:79 | Division returns the quotient, which multiplied back by the divisor gives the dividend. |
| EvaluationFacts.FractionBelowOne | parser.py:119 | The digits after a decimal point are worth less than one. |
| EvaluationFacts.DotIndexIsDot | parser.py:119 | The point located in a numeral is a `.`. |
| EvaluationFacts.NumeralWhole | parser.py:119 | `float(lexeme)` has the digits before the point as its whole part. |
| Reference.RenderStarts | parser.py:44 | The tokens of every tree start with a token in the first set of `Expr`. |
| Reference.ApplyArith | parser.py:58-81 | The reference operators are the evaluator's: `+` and `-` are `lval + rval` and `lval - rval`, and `*`, `/` and `%` are its multiplicative step, zero division included. |
| Reference.UnaryRender | parser.py:86-106 | `_UnaryExpr` on the tokens of a sign's operand (a numeral, a signed operand or a bracketed operation) yields the operand's value or fault and consumes exactly those tokens. |
| Reference.UnarySign | parser.py:96-99 | `+` followed by an operand yields the operand's value, and `-` its negation. |
| Reference.UnaryGroup | parser.py:171-177 | A bracketed operation yields the operation's value and consumes the `)`. |
| Reference.MulRender | parser.py:65-84 | `_MulExpr` on the tokens of an operand of `*`, `/` or `%` evaluates exactly those tokens to the operand's value, then continues its loop from there. |
| Reference.MulBin | parser.py:72-82 | A multiplicative operation groups to the left: the loop folds in its right operand after its left one. |
| Reference.MulRight | parser.py:72-82 | One round of the `_MulExpr` loop combines the value so far with the value of the right operand, and raises on division by zero. |
| Reference.MulOperand | parser.py:65-84 | `_MulExpr` on the right operand of `+` or `-` yields its value and consumes exactly its tokens. |
| Reference.AddRender | parser.py:50-63 | `_AddExpr` on the tokens of any tree, followed by no `*`, `/` or `%`, evaluates exactly those tokens to the tree's value, then continues its loop from there. |
| Reference.AddBin | parser.py:57-61 | An additive operation groups to the left, with products bound tighter. |
| Reference.AddRight | parser.py:57-61 | One round of the `_AddExpr` loop adds or subtracts the value of the right operand. |
| Reference.ExprRender | parser.py:37-49 | `_Expr` on the tokens of any tree, followed by a token that is not a binary operator, yields the tree's value or fault and consumes exactly those tokens. |
| Reference.ParseRender | parser.py:33-35 | A line spelling out any tree, followed by a token that is not a binary operator, evaluates to the tree's value or raises its fault. The table and the log are untouched. |
| Reference.GroupUnclosed | parser.py:171-177 | `(` and the tokens of any tree, followed by a token that is neither `)` nor a binary operator: the group yields the tree's value or fault, and logs "`)` expected" at that token's 1-based column without consuming it. |
| Reference.ArgLoopRender | parser.py:137-140 | The argument loop on `,` and the tokens of each of a list of trees, followed by a token that is neither `,` nor a binary operator, appends the trees' values in order and consumes exactly their tokens, or raises the first fault. |
| Reference.CallArgsRender | parser.py:131-140 | A call's `(` and arguments are evaluated from left to right and exactly their tokens consumed, then the call ends with those values; or the first argument fault is raised. |
| Reference.CallApplies | parser.py:142-152 | A name bound to a function `f`, then `(`, the arguments and `)`: `_Expr` returns `f` of the argument values in order, consumes exactly those tokens with the `)`, and leaves table and log untouched; or it raises the first argument fault. |
| Reference.CallUndefined | parser.py:142-152 | The same layout with an unbound name: the arguments are evaluated, the `)` consumed, the result is 0, and the log gains exactly "not part of the predefined functions" at the name's 1-based column. |
| Reference.CallUnclosed | parser.py:142-169 | A call whose `)` is missing: after the arguments, "`)` expected" is logged at the next token's 1-based column without consuming it. The name is then read as a variable: 0 with "not defined" logged for an unbound name, the number it is bound to, or a failure for a function. |
| ParserExamples.Precedence | parser.py:50-84 | `2+3*4 ` evaluates to 14: multiplication binds tighter. |
| ParserExamples.LeftFold | parser.py:57-61 | `8-3-2 ` evaluates to 3: subtraction folds to the left. |
| ParserExamples.Remainder | parser.py:81 | `7%-2 ` evaluates to -1: the remainder takes the divisor's sign. |
| ParserExamples.DivisionByZero | parser.py:79 | `1/0 ` raises `ZeroDivisionError`. |
| ParserExamples.Assignment | parser.py:157-162 | `x = 5 ` evaluates to 5 and binds x to 5. |
| ParserExamples.VariableRead | parser.py:164-169 | `x * 2 ` with x bound to 5 evaluates to 10. |
| ParserExamples.SwallowedOperator | parser.py:123-129 | `x*2 ` evaluates to 5 with x bound to 5: the `*` right after the identifier is skipped. |
| ParserExamples.FunctionCall | parser.py:131-151 | `f (1, 2) ` with `f` a summing built-in evaluates to 3 and consumes the `)`. |
| ParserExamples.FunctionAsValue | parser.py:164-169 | `f(1) ` reads the built-in `f` as a value, since the `(` is skipped. |
| ParserExamples.UndefinedName | parser.py:164-166 | `y ` evaluates to 0 and logs "not defined" at column 1. |
| ParserExamples.EmptyLine | parser.py:42-47 | The empty line evaluates to 0 and logs "not a valid start" at column 1. |
| ParserExamples.NumberAtLineEnd | parser.py:34 | `45` raises `IndexError` from the very first pull. |
| ParserExamples.LastDigitDropped | parser.py:50-106 | `2+3*4` evaluates to 2: the last `4` becomes end of line, and the missing operand is logged at column 5. |
| ParserExamples.UnclosedGroup | parser.py:171-177 | `(1 ` evaluates to 1 and logs "`)` expected" at column 4. |
| ParserExamples.StrayOperator | parser.py:157-162 | `x = * 2 + 5 ` binds x to 0, logs "not a valid start" at column 5, and evaluates to 5. |
| ParserExamples.Session | parser.py:182-188 | Two lines evaluated one after the other: `x = 5 ` gives 5 and binds x, and `x * 2 ` then gives 10. |

## Left out

- Logging and printing are not modelled.
  - Scanner diagnostics are kept as (column, kind) in `Tokenizer.diags`, and evaluator errors in `Parser.diags`.
  - The message texts and the `logger.debug` traces are not modelled.
- The contents of `sym_tab` are not modelled. The symtab module is not part of this model. The table is a parameter, and a built-in is any function from its argument list to a number.
- Python's exceptions inside a built-in and wrong argument counts are not modelled, because a built-in is a total function here.
- Floating point is left out: numbers are exact reals, so rounding, overflow and `float` parsing of long lexemes are not modelled.
- Unicode is left out: character classes are their ASCII members.
- The unreachable `return` at tokenizer.py:172 is not modelled, because the state loop before it never exits normally.
- `_is_index_within_range` (tokenizer.py:174-175) is `Tokenizer.IndexWithinRange` and has no contract of its own. It is called in the identifier machine and after a `.` (tokenizer.py:106, 150). In the integer and fraction states (tokenizer.py:136, 140, 160) it is only referenced, never called, so it is always true there. The number machine at the end of the line reflects this.
- RecursiveDescent.Parser.Parse requires a parser that has not pulled any token yet. Calling `parse` twice on one parser is not modelled.
- The `is_var_access` flag of `_PrimaryExpr` is replaced by an explicit split into `Named`, `Call`, `CallEnd` and `VarRead`, which return the same values and make the same state changes.
- Python's recursion limit is not modelled: deeply nested brackets or signs raise `RecursionError` in Python, while the model's recursion is unbounded.
- The `repl` loop (reading input, `quit`, printing the answer) is left out. `Interpret` models one iteration of it, and `Session` two.
- A state change made before a Python exception (for example a token already pulled, or an error already logged) is not described by the specification functions. After an `Err`, the model says nothing about the parser's fields.
