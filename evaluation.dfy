/**
 * The recursive-descent evaluator of parser.py, as functions.
 *
 * The evaluator has no syntax tree: each production reads the current token,
 * pulls the next one from the scanner when it consumes a token, and returns a
 * number. The scanner does not depend on the evaluator, so the functions
 * below read the tokens from the stream `ts` of what successive calls of
 * `get_next_token` return (`LexerFacts.Pulls`); the state says how many have
 * been pulled. They say what each production does to that state, the symbol
 * table and the error log; the class `Parser` in module `RecursiveDescent`
 * is proved to do exactly that against its real scanner.
 */
module Evaluation {
  import opened Wrappers
  import opened Lexer
  import opened LexerFacts

  /** A symbol-table entry: a number, or a built-in function applied to its argument list. */
  datatype Binding = Num(value: real) | Fn(apply: seq<real> -> real)

  type SymTab = map<string, Binding>

  datatype ParseError =
    | InvalidExprStart | InvalidUnaryStart | UndefinedFunction | RParenExpected | UndefinedVariable

  /** A logged evaluator error: its 1-based column and what went wrong. */
  datatype Diag = Diag(column: int, error: ParseError)

  /**
   * Why an evaluation ends without a value: the scanner indexed past the
   * line, a division or remainder by zero, a number called as a function
   * (a `TypeError`), a function read as a number, or a name looked up in
   * `sym_tab` that is not there (a `KeyError`, which `ParseSafe` in module
   * `EvaluationFacts` shows cannot happen).
   */
  datatype EvalFault =
    | ScanFault(fault: Lexer.Fault)
    | ZeroDivision
    | NotCallable(name: string)
    | NotANumber(name: string)
    | KeyError(name: string)

  /**
   * What a production reads and writes besides the scanner: how many tokens
   * have been pulled (the current token `self.tok` is the last of them),
   * `sym_tab` and the error log.
   */
  datatype PState = PState(pulled: nat, tab: SymTab, log: seq<Diag>)

  /** A production's value and the state it leaves. */
  datatype Eval = Eval(value: real, st: PState)

  /** The argument list of a call and the state after its last argument. */
  datatype Args = Args(values: seq<real>, st: PState)

  /** `self.tok` */
  function Tok(ts: Stream, st: PState): TokenInfo
    requires 0 < st.pulled <= |ts.scans|
  {
    ts.scans[st.pulled - 1].tok
  }

  /** Another call of `get_next_token` returns a token or raises. */
  predicate CanPull(ts: Stream, k: nat) {
    k < |ts.scans| || ts.fault.Some?
  }

  /**
   * The states productions run in: a token has been pulled, and unless it
   * ends the line the scanner can be asked for another.
   */
  predicate WF(ts: Stream, st: PState) {
    Terminated(ts) && 0 < st.pulled <= |ts.scans| &&
    (Tok(ts, st).kind != TokEoln ==> CanPull(ts, st.pulled))
  }

  /** How many tokens are left to pull; every consumed token lowers it. */
  function Measure(ts: Stream, st: PState): nat
    requires st.pulled <= |ts.scans|
  {
    |ts.scans| - st.pulled
  }

  /** A production only consumes tokens, and leaves a state productions can run in. */
  predicate Grows(ts: Stream, a: PState, b: PState) {
    a.pulled <= b.pulled && WF(ts, b)
  }

  /** `sym_tab[name]` */
  function Lookup(tab: SymTab, name: string): (r: Result<Binding, EvalFault>)
    ensures r.Ok? <==> name in tab
  {
    if name in tab then Ok(tab[name]) else Err(KeyError(name))
  }

  function Log(st: PState, col: int, e: ParseError): PState {
    st.(log := st.log + [Diag(col + 1, e)])
  }

  /** `self.tok = self.tokenizer.get_next_token()`: pull one more token, or raise. */
  function Advance(ts: Stream, st: PState): (r: Result<PState, EvalFault>)
    requires st.pulled <= |ts.scans| && CanPull(ts, st.pulled)
    ensures Terminated(ts) && r.Ok? ==> WF(ts, r.value)
  {
    if st.pulled < |ts.scans| then Ok(st.(pulled := st.pulled + 1))
    else Err(ScanFault(ts.fault.value))
  }

  /** The first set of `Expr` (parser.py:44). */
  predicate StartsExpr(k: Kind) {
    k == TokPlus || k == TokMinus || k == TokIdent || k == TokLParen || k == TokNumber
  }

  predicate IsAddOp(k: Kind) {
    k == TokPlus || k == TokMinus
  }

  predicate IsMulOp(k: Kind) {
    k == TokMul || k == TokDivide || k == TokMod
  }

  // The value of a numeral, standing for Python's `float` on the lexeme.

  function DigitValue(c: char): int {
    c as int - '0' as int
  }

  /** The value of a string of decimal digits, most significant first. */
  function IntegerValue(t: string): int {
    if t == [] then 0 else 10 * IntegerValue(t[..|t| - 1]) + DigitValue(t[|t| - 1])
  }

  /** The value of the digits after a decimal point: `0.d1d2...` is `(d1 + 0.d2...) / 10`. */
  function FractionValue(d: string): real {
    if d == [] then 0.0 else (DigitValue(d[0]) as real + FractionValue(d[1..])) / 10.0
  }

  /** `float(lexeme)` for `integer` and `integer "." integer`, as an exact real. */
  function NumeralValue(t: string): real {
    var k := DotIndex(t, 0);
    if k == |t| then IntegerValue(t) as real
    else IntegerValue(t[..k]) as real + FractionValue(t[k + 1..])
  }

  /**
   * Python's `%` on floats: the remainder takes the sign of the divisor,
   * and a zero divisor raises.
   */
  function PyMod(a: real, b: real): (r: Result<real, EvalFault>)
    ensures r.Err? <==> b == 0.0
  {
    if b == 0.0 then Err(ZeroDivision) else Ok(a - b * (a / b).Floor as real)
  }

  /** `lval + rval` or `lval - rval`, assigned back to `lval` (parser.py:58-61). */
  function Sum(op: Kind, a: real, b: real): real {
    if op == TokPlus then a + b else a - b
  }

  /** A unary `+` or `-` applied to `v` (parser.py:99). */
  function Signed(op: Kind, v: real): real {
    if op == TokPlus then v else -1.0 * v
  }

  /** `lval *= rval`, `lval /= rval` or `lval %= rval` (parser.py:76-81). */
  function Arith(op: Kind, a: real, b: real): (r: Result<real, EvalFault>)
    ensures r.Err? <==> op != TokMul && b == 0.0
    ensures r.Err? ==> r.error == ZeroDivision
  {
    if op == TokMul then Ok(a * b)
    else if op == TokDivide then (if b == 0.0 then Err(ZeroDivision) else Ok(a / b))
    else PyMod(a, b)
  }

  /** `Expr --> AddExpr`, guarded by its first set (parser.py:37-49). */
  function Expr(ts: Stream, st: PState): (r: Result<Eval, EvalFault>)
    requires WF(ts, st)
    decreases Measure(ts, st), 10
    ensures r.Ok? ==> Grows(ts, st, r.value.st)
  {
    if StartsExpr(Tok(ts, st).kind) then AddExpr(ts, st)
    else Ok(Eval(0.0, Log(st, Tok(ts, st).col, InvalidExprStart)))
  }

  /** `AddExpr --> MulExpr { ("+" | "-") MulExpr }` (parser.py:50-63). */
  function AddExpr(ts: Stream, st: PState): (r: Result<Eval, EvalFault>)
    requires WF(ts, st)
    decreases Measure(ts, st), 9
    ensures r.Ok? ==> Grows(ts, st, r.value.st)
  {
    var e :- MulExpr(ts, st);
    AddLoop(ts, e.st, e.value)
  }

  /** The loop of `_AddExpr` from accumulated value `lval`. */
  function AddLoop(ts: Stream, st: PState, lval: real): (r: Result<Eval, EvalFault>)
    requires WF(ts, st)
    decreases Measure(ts, st), 8
    ensures r.Ok? ==> Grows(ts, st, r.value.st)
  {
    if IsAddOp(Tok(ts, st).kind) then
      var st1 :- Advance(ts, st);
      var e :- MulExpr(ts, st1);
      AddLoop(ts, e.st, Sum(Tok(ts, st).kind, lval, e.value))
    else
      Ok(Eval(lval, st))
  }

  /** `MulExpr --> UnaryExpr { ("*" | "/" | "%") UnaryExpr }` (parser.py:65-84). */
  function MulExpr(ts: Stream, st: PState): (r: Result<Eval, EvalFault>)
    requires WF(ts, st)
    decreases Measure(ts, st), 7
    ensures r.Ok? ==> Grows(ts, st, r.value.st)
  {
    var e :- UnaryExpr(ts, st);
    MulLoop(ts, e.st, e.value)
  }

  /** The loop of `_MulExpr` from accumulated value `lval`. */
  function MulLoop(ts: Stream, st: PState, lval: real): (r: Result<Eval, EvalFault>)
    requires WF(ts, st)
    decreases Measure(ts, st), 6
    ensures r.Ok? ==> Grows(ts, st, r.value.st)
  {
    if IsMulOp(Tok(ts, st).kind) then
      var st1 :- Advance(ts, st);
      var e :- UnaryExpr(ts, st1);
      var v :- Arith(Tok(ts, st).kind, lval, e.value);
      MulLoop(ts, e.st, v)
    else
      Ok(Eval(lval, st))
  }

  /** `UnaryExpr --> PrimaryExpr | ("+" | "-") UnaryExpr` (parser.py:86-106). */
  function UnaryExpr(ts: Stream, st: PState): (r: Result<Eval, EvalFault>)
    requires WF(ts, st)
    decreases Measure(ts, st), 5
    ensures r.Ok? ==> Grows(ts, st, r.value.st)
  {
    if Tok(ts, st).kind == TokIdent || Tok(ts, st).kind == TokNumber || Tok(ts, st).kind == TokLParen then
      PrimaryExpr(ts, st)
    else if Tok(ts, st).kind == TokPlus || Tok(ts, st).kind == TokMinus then
      var st1 :- Advance(ts, st);
      var e :- UnaryExpr(ts, st1);
      Ok(Eval(Signed(Tok(ts, st).kind, e.value), e.st))
    else
      Ok(Eval(0.0, Log(st, Tok(ts, st).col, InvalidUnaryStart)))
  }

  /**
   * `PrimaryExpr --> number | Ident ... | "(" Expr ")"` (parser.py:108-180).
   * Whether the identifier is bound is decided when it is first seen.
   */
  function PrimaryExpr(ts: Stream, st: PState): (r: Result<Eval, EvalFault>)
    requires WF(ts, st)
    decreases Measure(ts, st), 4
    ensures r.Ok? ==> Grows(ts, st, r.value.st)
  {
    var t := Tok(ts, st);
    if t.kind == TokNumber then
      var st1 :- Advance(ts, st);
      Ok(Eval(NumeralValue(t.lexeme), st1))
    else if t.kind == TokIdent then
      var st1 :- Advance(ts, st);
      Named(ts, st1, t.lexeme, t.col, t.lexeme in st.tab)
    else if t.kind == TokLParen then
      Group(ts, st)
    else
      Ok(Eval(0.0, st))
  }

  /** `"(" Expr ")"`, logging a missing `)` (parser.py:171-177). */
  function Group(ts: Stream, st: PState): (r: Result<Eval, EvalFault>)
    requires WF(ts, st) && Tok(ts, st).kind == TokLParen
    decreases Measure(ts, st), 3
    ensures r.Ok? ==> Grows(ts, st, r.value.st)
  {
    var st1 :- Advance(ts, st);
    var e :- Expr(ts, st1);
    if Tok(ts, e.st).kind == TokRParen then
      var st2 :- Advance(ts, e.st);
      Ok(Eval(e.value, st2))
    else
      Ok(Eval(e.value, Log(e.st, Tok(ts, e.st).col, RParenExpected)))
  }

  /**
   * What follows the identifier `name` at column `col`: a call, an
   * assignment, or else a variable read (parser.py:129-169).
   */
  function Named(ts: Stream, st: PState, name: string, col: int, defined: bool): (r: Result<Eval, EvalFault>)
    requires WF(ts, st)
    decreases Measure(ts, st), 3
    ensures r.Ok? ==> Grows(ts, st, r.value.st)
  {
    if Tok(ts, st).kind == TokLParen then
      Call(ts, st, name, col, defined)
    else if Tok(ts, st).kind == TokEqual then
      var st1 :- Advance(ts, st);
      var e :- Expr(ts, st1);
      Ok(Eval(e.value, e.st.(tab := e.st.tab[name := Num(e.value)])))
    else
      VarRead(ts, st, name, col, defined)
  }

  /** A call of `name`, from its `(` on (parser.py:129-162). */
  function Call(ts: Stream, st: PState, name: string, col: int, defined: bool): (r: Result<Eval, EvalFault>)
    requires WF(ts, st) && Tok(ts, st).kind == TokLParen
    decreases Measure(ts, st), 2
    ensures r.Ok? ==> Grows(ts, st, r.value.st)
  {
    var st1 :- Advance(ts, st);
    var first :- Expr(ts, st1);
    var args :- ArgLoop(ts, first.st, [first.value]);
    CallEnd(ts, args, name, col, defined)
  }

  /** The loop over `"," Expr` in a call's argument list (parser.py:137-140). */
  function ArgLoop(ts: Stream, st: PState, args: seq<real>): (r: Result<Args, EvalFault>)
    requires WF(ts, st)
    decreases Measure(ts, st), 1
    ensures r.Ok? ==> Grows(ts, st, r.value.st)
  {
    if Tok(ts, st).kind == TokComma then
      var st1 :- Advance(ts, st);
      var e :- Expr(ts, st1);
      ArgLoop(ts, e.st, args + [e.value])
    else
      Ok(Args(args, st))
  }

  /**
   * After a call's arguments: with the `)` the call is made (or an undefined
   * function logged) and the `)` consumed; without it an error is logged and
   * the identifier is read as a variable after all (parser.py:142-169).
   */
  function CallEnd(ts: Stream, a: Args, name: string, col: int, defined: bool): (r: Result<Eval, EvalFault>)
    requires WF(ts, a.st)
    ensures r.Ok? ==> Grows(ts, a.st, r.value.st)
  {
    if Tok(ts, a.st).kind == TokRParen then
      if defined then
        var b :- Lookup(a.st.tab, name);
        match b
        case Fn(f) =>
          var st1 :- Advance(ts, a.st);
          Ok(Eval(f(a.values), st1))
        case Num(_) => Err(NotCallable(name))
      else
        var st1 :- Advance(ts, Log(a.st, col, UndefinedFunction));
        Ok(Eval(0.0, st1))
    else
      VarRead(ts, Log(a.st, Tok(ts, a.st).col, RParenExpected), name, col, defined)
  }

  /** A variable read (parser.py:164-169). */
  function VarRead(ts: Stream, st: PState, name: string, col: int, defined: bool): (r: Result<Eval, EvalFault>)
    requires WF(ts, st)
    ensures r.Ok? ==> Grows(ts, st, r.value.st)
  {
    if !defined then Ok(Eval(0.0, Log(st, col, UndefinedVariable)))
    else
      var b :- Lookup(st.tab, name);
      match b
      case Num(v) => Ok(Eval(v, st))
      case Fn(_) => Err(NotANumber(name))
  }

  /** `parse`: read the first token and evaluate one expression (parser.py:33-35). */
  function Parse(ts: Stream, tab: SymTab, log: seq<Diag>): (r: Result<Eval, EvalFault>)
    requires Terminated(ts)
    ensures r.Ok? ==> WF(ts, r.value.st)
    ensures |ts.scans| == 0 ==> r == Err(ScanFault(ts.fault.value))
  {
    var st1 :- Advance(ts, PState(0, tab, log));
    Expr(ts, st1)
  }
}
