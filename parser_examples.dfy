/** The evaluator run on concrete lines, from the characters of the line to its value. */
module ParserExamples {
  import opened Wrappers
  import opened Lexer
  import opened LexerFacts
  import opened Evaluation
  import opened EvaluationFacts
  import opened RecursiveDescent

  function Number(lexeme: string, col: int): Scan {
    Scan(TokenInfo(TokNumber, lexeme, col), col + |lexeme| - 1, [])
  }

  function Single(kind: Kind, c: char, col: int): Scan {
    Scan(TokenInfo(kind, [c], col), col, [])
  }

  /** The identifier machine leaves the cursor on the character after the name. */
  function Name(lexeme: string, col: int): Scan {
    Scan(TokenInfo(TokIdent, lexeme, col), col + |lexeme|, [])
  }

  function End(col: int): Scan {
    Scan(Eoln(col), col, [])
  }

  function At(k: nat, tab: SymTab): PState {
    PState(k, tab, [])
  }

  // One step of each production, for working out concrete lines step by step.

  /** A number is a primary: its value is the numeral's, and the number is consumed. */
  lemma NumberUnary(ts: Stream, st: PState)
    requires WF(ts, st) && Tok(ts, st).kind == TokNumber && st.pulled < |ts.scans|
    ensures UnaryExpr(ts, st) == Ok(Eval(NumeralValue(Tok(ts, st).lexeme), st.(pulled := st.pulled + 1)))
  {
  }

  lemma MulFrom(ts: Stream, st: PState, e: Eval)
    requires WF(ts, st) && UnaryExpr(ts, st) == Ok(e)
    ensures MulExpr(ts, st) == MulLoop(ts, e.st, e.value)
  {
  }

  lemma MulStep(ts: Stream, st: PState, lval: real, e: Eval, v: real)
    requires WF(ts, st) && IsMulOp(Tok(ts, st).kind) && st.pulled < |ts.scans|
    requires UnaryExpr(ts, st.(pulled := st.pulled + 1)) == Ok(e)
    requires Arith(Tok(ts, st).kind, lval, e.value) == Ok(v)
    ensures MulLoop(ts, st, lval) == MulLoop(ts, e.st, v)
  {
  }

  lemma MulEnd(ts: Stream, st: PState, lval: real)
    requires WF(ts, st) && !IsMulOp(Tok(ts, st).kind)
    ensures MulLoop(ts, st, lval) == Ok(Eval(lval, st))
  {
  }

  lemma AddFrom(ts: Stream, st: PState, e: Eval)
    requires WF(ts, st) && MulExpr(ts, st) == Ok(e)
    ensures AddExpr(ts, st) == AddLoop(ts, e.st, e.value)
  {
  }

  lemma AddStep(ts: Stream, st: PState, lval: real, e: Eval)
    requires WF(ts, st) && IsAddOp(Tok(ts, st).kind) && st.pulled < |ts.scans|
    requires MulExpr(ts, st.(pulled := st.pulled + 1)) == Ok(e)
    ensures AddLoop(ts, st, lval) == AddLoop(ts, e.st, Sum(Tok(ts, st).kind, lval, e.value))
  {
  }

  lemma AddEnd(ts: Stream, st: PState, lval: real)
    requires WF(ts, st) && !IsAddOp(Tok(ts, st).kind)
    ensures AddLoop(ts, st, lval) == Ok(Eval(lval, st))
  {
  }

  /** A line that starts an expression is evaluated by `AddExpr` from its first token. */
  lemma ParseFrom(ts: Stream, tab: SymTab)
    requires Terminated(ts) && |ts.scans| > 0 && StartsExpr(ts.scans[0].tok.kind)
    ensures Evaluation.Parse(ts, tab, []) == AddExpr(ts, At(1, tab))
  {
  }

  /** A signed operand: `+` keeps the value of what follows, `-` negates it. */
  lemma UnaryStep(ts: Stream, st: PState, e: Eval)
    requires WF(ts, st) && IsAddOp(Tok(ts, st).kind) && st.pulled < |ts.scans|
    requires UnaryExpr(ts, st.(pulled := st.pulled + 1)) == Ok(e)
    ensures UnaryExpr(ts, st) == Ok(Eval(Signed(Tok(ts, st).kind, e.value), e.st))
  {
  }

  /** An identifier is consumed, and what follows it decides what it means. */
  lemma NameUnary(ts: Stream, st: PState)
    requires WF(ts, st) && Tok(ts, st).kind == TokIdent && st.pulled < |ts.scans|
    ensures UnaryExpr(ts, st) ==
      Named(ts, st.(pulled := st.pulled + 1), Tok(ts, st).lexeme, Tok(ts, st).col, Tok(ts, st).lexeme in st.tab)
  {
  }

  /** A single operand followed by no binary operator is the whole expression. */
  lemma TermExpr(ts: Stream, st: PState, e: Eval)
    requires WF(ts, st) && StartsExpr(Tok(ts, st).kind) && UnaryExpr(ts, st) == Ok(e)
    requires !IsAddOp(Tok(ts, e.st).kind) && !IsMulOp(Tok(ts, e.st).kind)
    ensures Expr(ts, st) == Ok(e)
  {
    MulFrom(ts, st, e);
    MulEnd(ts, e.st, e.value);
    AddFrom(ts, st, e);
    AddEnd(ts, e.st, e.value);
  }

  lemma NumberExpr(ts: Stream, st: PState)
    requires WF(ts, st) && Tok(ts, st).kind == TokNumber && st.pulled < |ts.scans|
    requires !IsAddOp(ts.scans[st.pulled].tok.kind) && !IsMulOp(ts.scans[st.pulled].tok.kind)
    ensures Expr(ts, st) == Ok(Eval(NumeralValue(Tok(ts, st).lexeme), st.(pulled := st.pulled + 1)))
  {
    NumberUnary(ts, st);
    TermExpr(ts, st, Eval(NumeralValue(Tok(ts, st).lexeme), st.(pulled := st.pulled + 1)));
  }

  /** A fault in the first operand ends the whole expression. */
  lemma UnaryFault(ts: Stream, st: PState, f: EvalFault)
    requires WF(ts, st) && StartsExpr(Tok(ts, st).kind) && UnaryExpr(ts, st) == Err(f)
    ensures Expr(ts, st) == Err(f)
  {
    assert MulExpr(ts, st) == Err(f);
  }

  /** A division or remainder by zero inside a product ends the whole expression. */
  lemma MulFault(ts: Stream, st: PState, lval: real, e: Eval)
    requires WF(ts, st) && IsMulOp(Tok(ts, st).kind) && st.pulled < |ts.scans|
    requires UnaryExpr(ts, st.(pulled := st.pulled + 1)) == Ok(e)
    requires Arith(Tok(ts, st).kind, lval, e.value).Err?
    ensures MulLoop(ts, st, lval) == Err(ZeroDivision)
  {
  }

  lemma ExprFault(ts: Stream, st: PState, f: EvalFault)
    requires WF(ts, st) && StartsExpr(Tok(ts, st).kind) && MulExpr(ts, st) == Err(f)
    ensures Expr(ts, st) == Err(f)
  {
  }

  /** The first logged error. */
  lemma LogFirst(st: PState, col: int, e: ParseError)
    requires st.log == []
    ensures Log(st, col, e) == st.(log := [Diag(col + 1, e)])
  {
    assert [] + [Diag(col + 1, e)] == [Diag(col + 1, e)];
  }

  /** One more argument after a `,`. */
  lemma ArgStep(ts: Stream, st: PState, args: seq<real>, e: Eval)
    requires WF(ts, st) && Tok(ts, st).kind == TokComma && st.pulled < |ts.scans|
    requires Expr(ts, st.(pulled := st.pulled + 1)) == Ok(e)
    ensures ArgLoop(ts, st, args) == ArgLoop(ts, e.st, args + [e.value])
  {
  }

  // 2+3*4 followed by a blank: multiplication binds tighter than addition.

  const L1 := "2+3*4 "
  const S1 := Stream([Number("2", 0), Single(TokPlus, '+', 1), Number("3", 2), Single(TokMul, '*', 3),
                      Number("4", 4), End(6)], None)

  lemma Steps1()
    ensures Next(L1, -1) == Ok(S1.scans[0])
    ensures Next(L1, 0) == Ok(S1.scans[1])
    ensures Next(L1, 1) == Ok(S1.scans[2])
    ensures Next(L1, 2) == Ok(S1.scans[3])
    ensures Next(L1, 3) == Ok(S1.scans[4])
    ensures Next(L1, 4) == Ok(S1.scans[5])
  {
    assert L1[0..1] == "2" && L1[2..3] == "3" && L1[4..5] == "4";
  }

  lemma Scans1()
    ensures Pulls(L1, -1) == S1
  {
    Steps1();
    Chain(L1, -1, S1.scans);
  }

  lemma Product1()
    ensures MulExpr(S1, At(3, map[])) == Ok(Eval(12.0, At(6, map[])))
  {
    var e := map[];
    NumberUnary(S1, At(3, e));
    MulFrom(S1, At(3, e), Eval(3.0, At(4, e)));
    NumberUnary(S1, At(5, e));
    MulStep(S1, At(4, e), 3.0, Eval(4.0, At(6, e)), 12.0);
    MulEnd(S1, At(6, e), 12.0);
  }

  lemma Precedence()
    ensures var ts := Pulls(L1, -1);
      ts == S1 && Evaluation.Parse(ts, map[], []) == Ok(Eval(14.0, At(6, map[])))
  {
    Scans1();
    PrecedenceOnScans();
  }

  lemma Factor1()
    ensures MulExpr(S1, At(1, map[])) == Ok(Eval(2.0, At(2, map[])))
  {
    var e := map[];
    NumberUnary(S1, At(1, e));
    MulFrom(S1, At(1, e), Eval(2.0, At(2, e)));
    MulEnd(S1, At(2, e), 2.0);
  }

  lemma PrecedenceOnScans()
    ensures Evaluation.Parse(S1, map[], []) == Ok(Eval(14.0, At(6, map[])))
  {
    var e := map[];
    Factor1();
    AddFrom(S1, At(1, e), Eval(2.0, At(2, e)));
    Product1();
    AddStep(S1, At(2, e), 2.0, Eval(12.0, At(6, e)));
    AddEnd(S1, At(6, e), 14.0);
    ParseFrom(S1, e);
  }

  // 8-3-2 followed by a blank: subtraction groups to the left.

  const L2 := "8-3-2 "
  const S2 := Stream([Number("8", 0), Single(TokMinus, '-', 1), Number("3", 2), Single(TokMinus, '-', 3),
                      Number("2", 4), End(6)], None)

  lemma Steps2()
    ensures Next(L2, -1) == Ok(S2.scans[0])
    ensures Next(L2, 0) == Ok(S2.scans[1])
    ensures Next(L2, 1) == Ok(S2.scans[2])
    ensures Next(L2, 2) == Ok(S2.scans[3])
    ensures Next(L2, 3) == Ok(S2.scans[4])
    ensures Next(L2, 4) == Ok(S2.scans[5])
  {
    assert L2[0..1] == "8" && L2[2..3] == "3" && L2[4..5] == "2";
  }

  lemma Scans2()
    ensures Pulls(L2, -1) == S2
  {
    Steps2();
    Chain(L2, -1, S2.scans);
  }

  lemma Term2(k: nat, v: real)
    requires k in {1, 3, 5} && v == [8.0, 3.0, 2.0][k / 2]
    ensures MulExpr(S2, At(k, map[])) == Ok(Eval(v, At(k + 1, map[])))
  {
    NumberUnary(S2, At(k, map[]));
    MulFrom(S2, At(k, map[]), Eval(v, At(k + 1, map[])));
    MulEnd(S2, At(k + 1, map[]), v);
  }

  lemma Fold2()
    ensures AddLoop(S2, At(4, map[]), 5.0) == Ok(Eval(3.0, At(6, map[])))
  {
    Term2(5, 2.0);
    AddStep(S2, At(4, map[]), 5.0, Eval(2.0, At(6, map[])));
    AddEnd(S2, At(6, map[]), 3.0);
  }

  lemma LeftFold()
    ensures var ts := Pulls(L2, -1);
      ts == S2 && Evaluation.Parse(ts, map[], []) == Ok(Eval(3.0, At(6, map[])))
  {
    Scans2();
    LeftFoldOnScans();
  }

  lemma LeftFoldOnScans()
    ensures Evaluation.Parse(S2, map[], []) == Ok(Eval(3.0, At(6, map[])))
  {
    var e := map[];
    Term2(1, 8.0);
    Term2(3, 3.0);
    AddFrom(S2, At(1, e), Eval(8.0, At(2, e)));
    AddStep(S2, At(2, e), 8.0, Eval(3.0, At(4, e)));
    Fold2();
    ParseFrom(S2, e);
  }

  // 7%-2 followed by a blank: the remainder takes the sign of the divisor.

  const L3 := "7%-2 "
  const S3 := Stream([Number("7", 0), Single(TokMod, '%', 1), Single(TokMinus, '-', 2), Number("2", 3), End(5)], None)

  lemma Steps3()
    ensures Next(L3, -1) == Ok(S3.scans[0])
    ensures Next(L3, 0) == Ok(S3.scans[1])
    ensures Next(L3, 1) == Ok(S3.scans[2])
    ensures Next(L3, 2) == Ok(S3.scans[3])
    ensures Next(L3, 3) == Ok(S3.scans[4])
  {
    assert L3[0..1] == "7" && L3[3..4] == "2";
  }

  lemma Scans3()
    ensures Pulls(L3, -1) == S3
  {
    Steps3();
    Chain(L3, -1, S3.scans);
  }

  lemma Remainder3()
    ensures MulLoop(S3, At(2, map[]), 7.0) == MulLoop(S3, At(5, map[]), -1.0)
  {
    var e := map[];
    NumberUnary(S3, At(4, e));
    UnaryStep(S3, At(3, e), Eval(2.0, At(5, e)));
    assert (7.0 / -2.0).Floor == -4;
    MulStep(S3, At(2, e), 7.0, Eval(-2.0, At(5, e)), -1.0);
  }

  lemma Remainder()
    ensures var ts := Pulls(L3, -1);
      ts == S3 && Evaluation.Parse(ts, map[], []) == Ok(Eval(-1.0, At(5, map[])))
  {
    Scans3();
    RemainderOnScans();
  }

  lemma RemainderOnScans()
    ensures Evaluation.Parse(S3, map[], []) == Ok(Eval(-1.0, At(5, map[])))
  {
    var e := map[];
    NumberUnary(S3, At(1, e));
    MulFrom(S3, At(1, e), Eval(7.0, At(2, e)));
    Remainder3();
    MulEnd(S3, At(5, e), -1.0);
    AddFrom(S3, At(1, e), Eval(-1.0, At(5, e)));
    AddEnd(S3, At(5, e), -1.0);
    ParseFrom(S3, e);
  }

  // 1/0 followed by a blank: division by zero raises.

  const L4 := "1/0 "
  const S4 := Stream([Number("1", 0), Single(TokDivide, '/', 1), Number("0", 2), End(4)], None)

  lemma Steps4()
    ensures Next(L4, -1) == Ok(S4.scans[0])
    ensures Next(L4, 0) == Ok(S4.scans[1])
    ensures Next(L4, 1) == Ok(S4.scans[2])
    ensures Next(L4, 2) == Ok(S4.scans[3])
  {
    assert L4[0..1] == "1" && L4[2..3] == "0";
  }

  lemma Scans4()
    ensures Pulls(L4, -1) == S4
  {
    Steps4();
    Chain(L4, -1, S4.scans);
  }

  lemma DivisionByZero()
    ensures var ts := Pulls(L4, -1);
      ts == S4 && Evaluation.Parse(ts, map[], []) == Err(ZeroDivision)
  {
    Scans4();
    DivisionByZeroOnScans();
  }

  lemma DivisionByZeroOnScans()
    ensures Evaluation.Parse(S4, map[], []) == Err(ZeroDivision)
  {
    var e := map[];
    NumberUnary(S4, At(1, e));
    MulFrom(S4, At(1, e), Eval(1.0, At(2, e)));
    NumberUnary(S4, At(3, e));
    MulFault(S4, At(2, e), 1.0, Eval(0.0, At(4, e)));
    ExprFault(S4, At(1, e), ZeroDivision);
  }

  // x = 5 binds x; on the next line x * 2 reads it back.

  const L5 := "x = 5 "
  const S5 := Stream([Name("x", 0), Single(TokEqual, '=', 2), Number("5", 4), End(6)], None)

  lemma Steps5()
    ensures Next(L5, -1) == Ok(S5.scans[0])
    ensures Next(L5, 1) == Ok(S5.scans[1])
    ensures Next(L5, 2) == Ok(S5.scans[2])
    ensures Next(L5, 4) == Ok(S5.scans[3])
  {
    assert L5[0..1] == "x" && L5[4..5] == "5";
  }

  lemma Scans5()
    ensures Pulls(L5, -1) == S5
  {
    Steps5();
    Chain(L5, -1, S5.scans);
  }

  const X5: SymTab := map["x" := Num(5.0)]

  lemma Assignment()
    ensures var ts := Pulls(L5, -1);
      ts == S5 && Evaluation.Parse(ts, map[], []) == Ok(Eval(5.0, At(4, X5)))
  {
    Scans5();
    AssignmentOnScans();
  }

  lemma AssignmentOnScans()
    ensures Evaluation.Parse(S5, map[], []) == Ok(Eval(5.0, At(4, X5)))
  {
    var e := map[];
    NameUnary(S5, At(1, e));
    NumberExpr(S5, At(3, e));
    assert Named(S5, At(2, e), "x", 0, false) == Ok(Eval(5.0, At(4, X5)));
    TermExpr(S5, At(1, e), Eval(5.0, At(4, X5)));
  }

  const L6 := "x * 2 "
  const S6 := Stream([Name("x", 0), Single(TokMul, '*', 2), Number("2", 4), End(6)], None)

  lemma Steps6()
    ensures Next(L6, -1) == Ok(S6.scans[0])
    ensures Next(L6, 1) == Ok(S6.scans[1])
    ensures Next(L6, 2) == Ok(S6.scans[2])
    ensures Next(L6, 4) == Ok(S6.scans[3])
  {
    assert L6[0..1] == "x" && L6[4..5] == "2";
  }

  lemma Scans6()
    ensures Pulls(L6, -1) == S6
  {
    Steps6();
    Chain(L6, -1, S6.scans);
  }

  lemma VariableRead()
    ensures var ts := Pulls(L6, -1);
      ts == S6 && Evaluation.Parse(ts, X5, []) == Ok(Eval(10.0, At(4, X5)))
  {
    Scans6();
    VariableReadOnScans();
  }

  lemma VariableReadOnScans()
    ensures Evaluation.Parse(S6, X5, []) == Ok(Eval(10.0, At(4, X5)))
  {
    NameUnary(S6, At(1, X5));
    assert Named(S6, At(2, X5), "x", 0, true) == Ok(Eval(5.0, At(2, X5)));
    MulFrom(S6, At(1, X5), Eval(5.0, At(2, X5)));
    NumberUnary(S6, At(3, X5));
    MulStep(S6, At(2, X5), 5.0, Eval(2.0, At(4, X5)), 10.0);
    MulEnd(S6, At(4, X5), 10.0);
    AddFrom(S6, At(1, X5), Eval(10.0, At(4, X5)));
    AddEnd(S6, At(4, X5), 10.0);
    ParseFrom(S6, X5);
  }

  // x*2 followed by a blank: the identifier machine swallows the `*`, so the line reads x and ignores the 2.

  const L7 := "x*2 "
  const S7 := Stream([Name("x", 0), Number("2", 2), End(4)], None)

  lemma Steps7()
    ensures Next(L7, -1) == Ok(S7.scans[0])
    ensures Next(L7, 1) == Ok(S7.scans[1])
    ensures Next(L7, 2) == Ok(S7.scans[2])
  {
    assert L7[0..1] == "x" && L7[2..3] == "2";
  }

  lemma Scans7()
    ensures Pulls(L7, -1) == S7
  {
    Steps7();
    Chain(L7, -1, S7.scans);
  }

  lemma SwallowedOperator()
    ensures var ts := Pulls(L7, -1);
      ts == S7 && Evaluation.Parse(ts, X5, []) == Ok(Eval(5.0, At(2, X5)))
  {
    Scans7();
    SwallowedOperatorOnScans();
  }

  lemma SwallowedOperatorOnScans()
    ensures Evaluation.Parse(S7, X5, []) == Ok(Eval(5.0, At(2, X5)))
  {
    NameUnary(S7, At(1, X5));
    assert Named(S7, At(2, X5), "x", 0, true) == Ok(Eval(5.0, At(2, X5)));
    TermExpr(S7, At(1, X5), Eval(5.0, At(2, X5)));
  }

  // f (1, 2) followed by a blank, with f bound to a function of two arguments.

  function Add2(v: seq<real>): real {
    if |v| >= 2 then v[0] + v[1] else 0.0
  }

  const F: SymTab := map["f" := Fn(Add2)]

  const L8 := "f (1, 2) "
  const S8 := Stream([Name("f", 0), Single(TokLParen, '(', 2), Number("1", 3), Single(TokComma, ',', 4),
                      Number("2", 6), Single(TokRParen, ')', 7), End(9)], None)

  lemma Steps8()
    ensures Next(L8, -1) == Ok(S8.scans[0])
    ensures Next(L8, 1) == Ok(S8.scans[1])
    ensures Next(L8, 2) == Ok(S8.scans[2])
    ensures Next(L8, 3) == Ok(S8.scans[3])
    ensures Next(L8, 4) == Ok(S8.scans[4])
    ensures Next(L8, 6) == Ok(S8.scans[5])
    ensures Next(L8, 7) == Ok(S8.scans[6])
  {
    assert L8[0..1] == "f" && L8[3..4] == "1" && L8[6..7] == "2";
  }

  lemma Scans8()
    ensures Pulls(L8, -1) == S8
  {
    Steps8();
    Chain(L8, -1, S8.scans);
  }

  lemma ArgList8()
    ensures ArgLoop(S8, At(4, F), [1.0]) == Ok(Args([1.0, 2.0], At(6, F)))
  {
    NumberExpr(S8, At(5, F));
    ArgStep(S8, At(4, F), [1.0], Eval(2.0, At(6, F)));
    assert [1.0] + [2.0] == [1.0, 2.0];
    assert ArgLoop(S8, At(6, F), [1.0, 2.0]) == Ok(Args([1.0, 2.0], At(6, F)));
  }

  lemma CallEnd8()
    ensures CallEnd(S8, Args([1.0, 2.0], At(6, F)), "f", 0, true) == Ok(Eval(3.0, At(7, F)))
  {
  }

  lemma Arguments8()
    ensures Call(S8, At(2, F), "f", 0, true) == Ok(Eval(3.0, At(7, F)))
  {
    NumberExpr(S8, At(3, F));
    ArgList8();
    CallEnd8();
  }

  lemma FunctionCall()
    ensures var ts := Pulls(L8, -1);
      ts == S8 && Evaluation.Parse(ts, F, []) == Ok(Eval(3.0, At(7, F)))
  {
    Scans8();
    FunctionCallOnScans();
  }

  lemma FunctionCallOnScans()
    ensures Evaluation.Parse(S8, F, []) == Ok(Eval(3.0, At(7, F)))
  {
    NameUnary(S8, At(1, F));
    Arguments8();
    TermExpr(S8, At(1, F), Eval(3.0, At(7, F)));
  }

  // f(1) followed by a blank: the `(` is swallowed, so f is read as a variable, and it is a function.

  const L9 := "f(1) "
  const S9 := Stream([Name("f", 0), Number("1", 2), Single(TokRParen, ')', 3), End(5)], None)

  lemma Steps9()
    ensures Next(L9, -1) == Ok(S9.scans[0])
    ensures Next(L9, 1) == Ok(S9.scans[1])
    ensures Next(L9, 2) == Ok(S9.scans[2])
    ensures Next(L9, 3) == Ok(S9.scans[3])
  {
    assert L9[0..1] == "f" && L9[2..3] == "1";
  }

  lemma Scans9()
    ensures Pulls(L9, -1) == S9
  {
    Steps9();
    Chain(L9, -1, S9.scans);
  }

  lemma FunctionAsValue()
    ensures var ts := Pulls(L9, -1);
      ts == S9 && Evaluation.Parse(ts, F, []) == Err(NotANumber("f"))
  {
    Scans9();
    FunctionAsValueOnScans();
  }

  lemma FunctionAsValueOnScans()
    ensures Evaluation.Parse(S9, F, []) == Err(NotANumber("f"))
  {
    NameUnary(S9, At(1, F));
    UnaryFault(S9, At(1, F), NotANumber("f"));
  }

  // y followed by a blank, with y unbound: 0, and the error logged at column 1.

  const L10 := "y "
  const S10 := Stream([Name("y", 0), End(2)], None)

  lemma Steps10()
    ensures Next(L10, -1) == Ok(S10.scans[0])
    ensures Next(L10, 1) == Ok(S10.scans[1])
  {
    assert L10[0..1] == "y";
  }

  lemma Scans10()
    ensures Pulls(L10, -1) == S10
  {
    Steps10();
    Chain(L10, -1, S10.scans);
  }

  lemma UndefinedName()
    ensures var ts := Pulls(L10, -1);
      ts == S10 && Evaluation.Parse(ts, map[], []) == Ok(Eval(0.0, PState(2, map[], [Diag(1, UndefinedVariable)])))
  {
    Scans10();
    UndefinedNameOnScans();
  }

  lemma UndefinedNameOnScans()
    ensures Evaluation.Parse(S10, map[], []) == Ok(Eval(0.0, PState(2, map[], [Diag(1, UndefinedVariable)])))
  {
    NameUnary(S10, At(1, map[]));
    LogFirst(At(2, map[]), 0, UndefinedVariable);
    assert Named(S10, At(2, map[]), "y", 0, false) == Ok(Eval(0.0, PState(2, map[], [Diag(1, UndefinedVariable)])));
    TermExpr(S10, At(1, map[]), Eval(0.0, PState(2, map[], [Diag(1, UndefinedVariable)])));
  }

  // The empty line: not the start of an expression, logged at column 1.

  lemma EmptyLine()
    ensures Pulls("", -1) == Stream([End(0)], None)
    ensures Evaluation.Parse(Stream([End(0)], None), map[], []) ==
      Ok(Eval(0.0, PState(1, map[], [Diag(1, InvalidExprStart)])))
  {
    assert Next("", -1) == Ok(End(0));
    ParseInvalidStart(Stream([End(0)], None), map[], []);
    LogFirst(At(1, map[]), 0, InvalidExprStart);
  }

  // 45 with nothing after it: the scanner indexes past the line.

  lemma NumberAtLineEnd()
    ensures Pulls("45", -1) == Stream([], Some(IndexError(2)))
    ensures Evaluation.Parse(Stream([], Some(IndexError(2))), map[], []) == Err(ScanFault(IndexError(2)))
  {
  }

  // 2+3*4 with nothing after it: the 4 on the last index never becomes a token.

  const L12 := "2+3*4"
  const S12 := Stream([Number("2", 0), Single(TokPlus, '+', 1), Number("3", 2), Single(TokMul, '*', 3), End(4)], None)

  lemma Steps12()
    ensures Next(L12, -1) == Ok(S12.scans[0])
    ensures Next(L12, 0) == Ok(S12.scans[1])
    ensures Next(L12, 1) == Ok(S12.scans[2])
    ensures Next(L12, 2) == Ok(S12.scans[3])
    ensures Next(L12, 3) == Ok(S12.scans[4])
  {
    assert L12[0..1] == "2" && L12[2..3] == "3";
  }

  lemma Scans12()
    ensures Pulls(L12, -1) == S12
  {
    Steps12();
    Chain(L12, -1, S12.scans);
  }

  const Lost := PState(5, map[], [Diag(5, InvalidUnaryStart)])

  lemma Term12()
    ensures MulExpr(S12, At(1, map[])) == Ok(Eval(2.0, At(2, map[])))
  {
    NumberUnary(S12, At(1, map[]));
    MulFrom(S12, At(1, map[]), Eval(2.0, At(2, map[])));
    MulEnd(S12, At(2, map[]), 2.0);
  }

  lemma Product12()
    ensures MulExpr(S12, At(3, map[])) == Ok(Eval(0.0, Lost))
  {
    var e := map[];
    NumberUnary(S12, At(3, e));
    MulFrom(S12, At(3, e), Eval(3.0, At(4, e)));
    LogFirst(At(5, e), 4, InvalidUnaryStart);
    assert UnaryExpr(S12, At(5, e)) == Ok(Eval(0.0, Lost));
    MulStep(S12, At(4, e), 3.0, Eval(0.0, Lost), 0.0);
    MulEnd(S12, Lost, 0.0);
  }

  lemma LastDigitDropped()
    ensures var ts := Pulls(L12, -1);
      ts == S12 && Evaluation.Parse(ts, map[], []) == Ok(Eval(2.0, Lost))
  {
    Scans12();
    LastDigitDroppedOnScans();
  }

  lemma LastDigitDroppedOnScans()
    ensures Evaluation.Parse(S12, map[], []) == Ok(Eval(2.0, Lost))
  {
    var e := map[];
    Term12();
    AddFrom(S12, At(1, e), Eval(2.0, At(2, e)));
    Product12();
    AddStep(S12, At(2, e), 2.0, Eval(0.0, Lost));
    AddEnd(S12, Lost, 2.0);
    ParseFrom(S12, e);
  }

  // (1 followed by a blank: the missing `)` is logged before the end of line, at column 4.

  const L13 := "(1 "
  const S13 := Stream([Single(TokLParen, '(', 0), Number("1", 1), End(3)], None)

  lemma Steps13()
    ensures Next(L13, -1) == Ok(S13.scans[0])
    ensures Next(L13, 0) == Ok(S13.scans[1])
    ensures Next(L13, 1) == Ok(S13.scans[2])
  {
    assert L13[1..2] == "1";
  }

  lemma Scans13()
    ensures Pulls(L13, -1) == S13
  {
    Steps13();
    Chain(L13, -1, S13.scans);
  }

  lemma UnclosedGroup()
    ensures var ts := Pulls(L13, -1);
      ts == S13 && Evaluation.Parse(ts, map[], []) == Ok(Eval(1.0, PState(3, map[], [Diag(4, RParenExpected)])))
  {
    Scans13();
    UnclosedGroupOnScans();
  }

  lemma UnclosedGroupOnScans()
    ensures Evaluation.Parse(S13, map[], []) == Ok(Eval(1.0, PState(3, map[], [Diag(4, RParenExpected)])))
  {
    NumberExpr(S13, At(2, map[]));
    LogFirst(At(3, map[]), 3, RParenExpected);
    assert Group(S13, At(1, map[])) == Ok(Eval(1.0, PState(3, map[], [Diag(4, RParenExpected)])));
    assert UnaryExpr(S13, At(1, map[])) == Ok(Eval(1.0, PState(3, map[], [Diag(4, RParenExpected)])));
    TermExpr(S13, At(1, map[]), Eval(1.0, PState(3, map[], [Diag(4, RParenExpected)])));
  }

  // x = * 2 + 5 followed by a blank: the right-hand side does not start an
  // expression, so x is bound to 0, and the line goes on to print 0 * 2 + 5.

  const L14 := "x = * 2 + 5 "
  const S14 := Stream([Name("x", 0), Single(TokEqual, '=', 2), Single(TokMul, '*', 4), Number("2", 6),
                       Single(TokPlus, '+', 8), Number("5", 10), End(12)], None)

  lemma Steps14()
    ensures Next(L14, -1) == Ok(S14.scans[0])
    ensures Next(L14, 1) == Ok(S14.scans[1])
    ensures Next(L14, 2) == Ok(S14.scans[2])
    ensures Next(L14, 4) == Ok(S14.scans[3])
    ensures Next(L14, 6) == Ok(S14.scans[4])
    ensures Next(L14, 8) == Ok(S14.scans[5])
    ensures Next(L14, 10) == Ok(S14.scans[6])
  {
    assert L14[0..1] == "x" && L14[6..7] == "2" && L14[10..11] == "5";
  }

  lemma Scans14()
    ensures Pulls(L14, -1) == S14
  {
    Steps14();
    Chain(L14, -1, S14.scans);
  }

  const X0: SymTab := map["x" := Num(0.0)]

  /** The state after the stray `*`: x bound to 0 and the error logged at column 5. */
  function Stray(k: nat): PState {
    PState(k, X0, [Diag(5, InvalidExprStart)])
  }

  lemma StrayOperator()
    ensures var ts := Pulls(L14, -1);
      ts == S14 && Evaluation.Parse(ts, map[], []) == Ok(Eval(5.0, Stray(7)))
  {
    Scans14();
    StrayOperatorOnScans();
  }

  lemma StrayAssignment()
    ensures UnaryExpr(S14, At(1, map[])) == Ok(Eval(0.0, Stray(3)))
  {
    var e := map[];
    NameUnary(S14, At(1, e));
    LogFirst(At(3, e), 4, InvalidExprStart);
    assert Expr(S14, At(3, e)) == Ok(Eval(0.0, PState(3, e, [Diag(5, InvalidExprStart)])));
    assert Named(S14, At(2, e), "x", 0, false) == Ok(Eval(0.0, Stray(3)));
  }

  lemma StrayProduct()
    ensures MulExpr(S14, At(1, map[])) == Ok(Eval(0.0, Stray(5)))
  {
    var e := map[];
    StrayAssignment();
    MulFrom(S14, At(1, e), Eval(0.0, Stray(3)));
    NumberUnary(S14, Stray(4));
    MulStep(S14, Stray(3), 0.0, Eval(2.0, Stray(5)), 0.0);
    MulEnd(S14, Stray(5), 0.0);
  }

  lemma StraySum()
    ensures AddLoop(S14, Stray(5), 0.0) == Ok(Eval(5.0, Stray(7)))
  {
    NumberUnary(S14, Stray(6));
    MulFrom(S14, Stray(6), Eval(5.0, Stray(7)));
    MulEnd(S14, Stray(7), 5.0);
    AddStep(S14, Stray(5), 0.0, Eval(5.0, Stray(7)));
    AddEnd(S14, Stray(7), 5.0);
  }

  lemma StrayOperatorOnScans()
    ensures Evaluation.Parse(S14, map[], []) == Ok(Eval(5.0, Stray(7)))
  {
    var e := map[];
    StrayProduct();
    AddFrom(S14, At(1, e), Eval(0.0, Stray(5)));
    StraySum();
    ParseFrom(S14, e);
  }

  /**
   * Two lines read one after the other: `x = 5 ` binds x, and `x * 2 `
   * then reads it back, through the parser objects themselves.
   */
  method Session() returns (first: Result<real, EvalFault>, second: Result<real, EvalFault>, tab: SymTab)
    ensures first == Ok(5.0) && second == Ok(10.0) && tab == X5
  {
    var t1, log1, log2;
    first, t1, log1 := Interpret(L5, map[]);
    Assignment();
    second, tab, log2 := Interpret(L6, t1);
    VariableRead();
  }
}
