/**
 * What the evaluator guarantees across whole productions: bound names stay
 * bound, errors are only ever appended, the table changes only through `=`,
 * and so a dictionary lookup of a name seen bound never fails.
 */
module EvaluationFacts {
  import opened Wrappers
  import opened Lexer
  import opened LexerFacts
  import opened Evaluation

  /** No token of `ts` from index `k` on is an `=`. */
  ghost predicate NoAssignFrom(ts: Stream, k: int) {
    forall i :: 0 <= i < |ts.scans| && k <= i ==> ts.scans[i].tok.kind != TokEqual
  }

  /**
   * From state `a` to state `b`: tokens are only consumed, every bound name
   * is still bound, the log only grows at its end, and when neither the
   * current token of `a` nor any later one is an `=` the table is untouched.
   */
  ghost predicate Extends(ts: Stream, a: PState, b: PState) {
    a.pulled <= b.pulled && a.tab.Keys <= b.tab.Keys && a.log <= b.log &&
    (NoAssignFrom(ts, a.pulled as int - 1) ==> b.tab == a.tab)
  }

  /** A production's outcome from `st`: its final state extends `st`, and it never raises `KeyError`. */
  ghost predicate Safe(ts: Stream, st: PState, r: Result<Eval, EvalFault>) {
    match r
    case Ok(e) => Extends(ts, st, e.st)
    case Err(f) => !f.KeyError?
  }

  ghost predicate SafeArgs(ts: Stream, st: PState, r: Result<Args, EvalFault>) {
    match r
    case Ok(a) => Extends(ts, st, a.st)
    case Err(f) => !f.KeyError?
  }

  lemma ExtendsTrans(ts: Stream, a: PState, b: PState, c: PState)
    requires Extends(ts, a, b) && Extends(ts, b, c)
    ensures Extends(ts, a, c)
  {
    assert a.log <= c.log by {
      assert |a.log| <= |b.log| <= |c.log|;
      assert c.log[..|a.log|] == c.log[..|b.log|][..|a.log|];
    }
  }

  /** Pulling a token, or logging an error, changes neither the table nor the earlier log. */
  lemma AdvanceExtends(ts: Stream, st: PState)
    requires st.pulled <= |ts.scans| && CanPull(ts, st.pulled)
    ensures Advance(ts, st).Ok? ==> Extends(ts, st, Advance(ts, st).value)
    ensures Advance(ts, st).Err? ==> Advance(ts, st).error.ScanFault?
  {
  }

  lemma LogExtends(ts: Stream, st: PState, col: int, e: ParseError)
    ensures Extends(ts, st, Log(st, col, e))
  {
  }

  /** An `=` as the current token. */
  lemma AssignSeen(ts: Stream, st: PState)
    requires WF(ts, st) && Tok(ts, st).kind == TokEqual
    ensures !NoAssignFrom(ts, st.pulled as int - 1)
  {
    assert ts.scans[st.pulled - 1].tok.kind == TokEqual;
  }

  lemma {:induction false} ExprSafe(ts: Stream, st: PState)
    requires WF(ts, st)
    decreases Measure(ts, st), 10
    ensures Safe(ts, st, Expr(ts, st))
  {
    if StartsExpr(Tok(ts, st).kind) {
      AddExprSafe(ts, st);
    } else {
      LogExtends(ts, st, Tok(ts, st).col, InvalidExprStart);
    }
  }

  lemma {:induction false} AddExprSafe(ts: Stream, st: PState)
    requires WF(ts, st)
    decreases Measure(ts, st), 9
    ensures Safe(ts, st, AddExpr(ts, st))
  {
    MulExprSafe(ts, st);
    var r := MulExpr(ts, st);
    if r.Ok? {
      AddLoopSafe(ts, r.value.st, r.value.value);
      var r2 := AddLoop(ts, r.value.st, r.value.value);
      if r2.Ok? {
        ExtendsTrans(ts, st, r.value.st, r2.value.st);
      }
    }
  }

  lemma {:induction false} AddLoopSafe(ts: Stream, st: PState, lval: real)
    requires WF(ts, st)
    decreases Measure(ts, st), 8
    ensures Safe(ts, st, AddLoop(ts, st, lval))
  {
    if IsAddOp(Tok(ts, st).kind) {
      AdvanceExtends(ts, st);
      var a := Advance(ts, st);
      if a.Ok? {
        MulExprSafe(ts, a.value);
        var r := MulExpr(ts, a.value);
        if r.Ok? {
          var v := Sum(Tok(ts, st).kind, lval, r.value.value);
          AddLoopSafe(ts, r.value.st, v);
          var r2 := AddLoop(ts, r.value.st, v);
          if r2.Ok? {
            ExtendsTrans(ts, st, a.value, r.value.st);
            ExtendsTrans(ts, st, r.value.st, r2.value.st);
          }
        }
      }
    }
  }

  lemma {:induction false} MulExprSafe(ts: Stream, st: PState)
    requires WF(ts, st)
    decreases Measure(ts, st), 7
    ensures Safe(ts, st, MulExpr(ts, st))
  {
    UnaryExprSafe(ts, st);
    var r := UnaryExpr(ts, st);
    if r.Ok? {
      MulLoopSafe(ts, r.value.st, r.value.value);
      var r2 := MulLoop(ts, r.value.st, r.value.value);
      if r2.Ok? {
        ExtendsTrans(ts, st, r.value.st, r2.value.st);
      }
    }
  }

  lemma {:induction false} MulLoopSafe(ts: Stream, st: PState, lval: real)
    requires WF(ts, st)
    decreases Measure(ts, st), 6
    ensures Safe(ts, st, MulLoop(ts, st, lval))
  {
    if IsMulOp(Tok(ts, st).kind) {
      AdvanceExtends(ts, st);
      var a := Advance(ts, st);
      if a.Ok? {
        UnaryExprSafe(ts, a.value);
        var r := UnaryExpr(ts, a.value);
        if r.Ok? {
          var v := Arith(Tok(ts, st).kind, lval, r.value.value);
          if v.Ok? {
            MulLoopSafe(ts, r.value.st, v.value);
            var r2 := MulLoop(ts, r.value.st, v.value);
            if r2.Ok? {
              ExtendsTrans(ts, st, a.value, r.value.st);
              ExtendsTrans(ts, st, r.value.st, r2.value.st);
            }
          }
        }
      }
    }
  }

  lemma {:induction false} UnaryExprSafe(ts: Stream, st: PState)
    requires WF(ts, st)
    decreases Measure(ts, st), 5
    ensures Safe(ts, st, UnaryExpr(ts, st))
  {
    var k := Tok(ts, st).kind;
    if k == TokIdent || k == TokNumber || k == TokLParen {
      PrimaryExprSafe(ts, st);
    } else if k == TokPlus || k == TokMinus {
      AdvanceExtends(ts, st);
      var a := Advance(ts, st);
      if a.Ok? {
        UnaryExprSafe(ts, a.value);
        var r := UnaryExpr(ts, a.value);
        if r.Ok? {
          ExtendsTrans(ts, st, a.value, r.value.st);
        }
      }
    } else {
      LogExtends(ts, st, Tok(ts, st).col, InvalidUnaryStart);
    }
  }

  lemma {:induction false} PrimaryExprSafe(ts: Stream, st: PState)
    requires WF(ts, st)
    decreases Measure(ts, st), 4
    ensures Safe(ts, st, PrimaryExpr(ts, st))
  {
    var t := Tok(ts, st);
    if t.kind == TokNumber {
      AdvanceExtends(ts, st);
    } else if t.kind == TokIdent {
      AdvanceExtends(ts, st);
      var a := Advance(ts, st);
      if a.Ok? {
        NamedSafe(ts, a.value, t.lexeme, t.col, t.lexeme in st.tab);
        var r := Named(ts, a.value, t.lexeme, t.col, t.lexeme in st.tab);
        if r.Ok? {
          ExtendsTrans(ts, st, a.value, r.value.st);
        }
      }
    } else if t.kind == TokLParen {
      GroupSafe(ts, st);
    }
  }

  lemma {:induction false} GroupSafe(ts: Stream, st: PState)
    requires WF(ts, st) && Tok(ts, st).kind == TokLParen
    decreases Measure(ts, st), 3
    ensures Safe(ts, st, Group(ts, st))
  {
    AdvanceExtends(ts, st);
    var a := Advance(ts, st);
    if a.Ok? {
      ExprSafe(ts, a.value);
      var r := Expr(ts, a.value);
      if r.Ok? {
        ExtendsTrans(ts, st, a.value, r.value.st);
        var e := r.value;
        if Tok(ts, e.st).kind == TokRParen {
          AdvanceExtends(ts, e.st);
          var a2 := Advance(ts, e.st);
          if a2.Ok? {
            ExtendsTrans(ts, st, e.st, a2.value);
          }
        } else {
          LogExtends(ts, e.st, Tok(ts, e.st).col, RParenExpected);
          ExtendsTrans(ts, st, e.st, Log(e.st, Tok(ts, e.st).col, RParenExpected));
        }
      }
    }
  }

  lemma {:induction false} NamedSafe(ts: Stream, st: PState, name: string, col: int, defined: bool)
    requires WF(ts, st) && (defined ==> name in st.tab)
    decreases Measure(ts, st), 3
    ensures Safe(ts, st, Named(ts, st, name, col, defined))
  {
    if Tok(ts, st).kind == TokLParen {
      CallSafe(ts, st, name, col, defined);
    } else if Tok(ts, st).kind == TokEqual {
      AssignSeen(ts, st);
      AdvanceExtends(ts, st);
      var a := Advance(ts, st);
      if a.Ok? {
        ExprSafe(ts, a.value);
        var r := Expr(ts, a.value);
        if r.Ok? {
          ExtendsTrans(ts, st, a.value, r.value.st);
        }
      }
    } else {
      VarReadSafe(ts, st, name, col, defined);
    }
  }

  lemma {:induction false} CallSafe(ts: Stream, st: PState, name: string, col: int, defined: bool)
    requires WF(ts, st) && Tok(ts, st).kind == TokLParen && (defined ==> name in st.tab)
    decreases Measure(ts, st), 2
    ensures Safe(ts, st, Call(ts, st, name, col, defined))
  {
    AdvanceExtends(ts, st);
    var a := Advance(ts, st);
    if a.Ok? {
      ExprSafe(ts, a.value);
      var r := Expr(ts, a.value);
      if r.Ok? {
        ExtendsTrans(ts, st, a.value, r.value.st);
        ArgLoopSafe(ts, r.value.st, [r.value.value]);
        var args := ArgLoop(ts, r.value.st, [r.value.value]);
        if args.Ok? {
          ExtendsTrans(ts, st, r.value.st, args.value.st);
          CallEndSafe(ts, args.value, name, col, defined);
          var c := CallEnd(ts, args.value, name, col, defined);
          if c.Ok? {
            ExtendsTrans(ts, st, args.value.st, c.value.st);
          }
        }
      }
    }
  }

  lemma {:induction false} ArgLoopSafe(ts: Stream, st: PState, args: seq<real>)
    requires WF(ts, st)
    decreases Measure(ts, st), 1
    ensures SafeArgs(ts, st, ArgLoop(ts, st, args))
  {
    if Tok(ts, st).kind == TokComma {
      AdvanceExtends(ts, st);
      var a := Advance(ts, st);
      if a.Ok? {
        ExprSafe(ts, a.value);
        var r := Expr(ts, a.value);
        if r.Ok? {
          ArgLoopSafe(ts, r.value.st, args + [r.value.value]);
          var r2 := ArgLoop(ts, r.value.st, args + [r.value.value]);
          if r2.Ok? {
            ExtendsTrans(ts, st, a.value, r.value.st);
            ExtendsTrans(ts, st, r.value.st, r2.value.st);
          }
        }
      }
    }
  }

  lemma CallEndSafe(ts: Stream, a: Args, name: string, col: int, defined: bool)
    requires WF(ts, a.st) && (defined ==> name in a.st.tab)
    ensures Safe(ts, a.st, CallEnd(ts, a, name, col, defined))
  {
    if Tok(ts, a.st).kind == TokRParen {
      if defined {
        AdvanceExtends(ts, a.st);
      } else {
        var st1 := Log(a.st, col, UndefinedFunction);
        AdvanceExtends(ts, st1);
        if Advance(ts, st1).Ok? {
          ExtendsTrans(ts, a.st, st1, Advance(ts, st1).value);
        }
      }
    } else {
      var st1 := Log(a.st, Tok(ts, a.st).col, RParenExpected);
      VarReadSafe(ts, st1, name, col, defined);
      var r := VarRead(ts, st1, name, col, defined);
      if r.Ok? {
        ExtendsTrans(ts, a.st, st1, r.value.st);
      }
    }
  }

  lemma VarReadSafe(ts: Stream, st: PState, name: string, col: int, defined: bool)
    requires WF(ts, st) && (defined ==> name in st.tab)
    ensures Safe(ts, st, VarRead(ts, st, name, col, defined))
  {
  }

  /**
   * `parse` never raises `KeyError`: a name found in `sym_tab` when its
   * identifier is read is still there when it is looked up. Names once bound
   * stay bound, logged errors are never taken back, and a line without `=`
   * leaves the table as it was.
   */
  lemma ParseSafe(ts: Stream, tab: SymTab, log: seq<Diag>)
    requires Terminated(ts)
    ensures Safe(ts, PState(0, tab, log), Evaluation.Parse(ts, tab, log))
  {
    var st0 := PState(0, tab, log);
    if |ts.scans| > 0 {
      var st1 := st0.(pulled := 1);
      ExprSafe(ts, st1);
      var r := Expr(ts, st1);
      if r.Ok? {
        ExtendsTrans(ts, st0, st1, r.value.st);
      }
    }
  }

  /** The loop of `_MulExpr` runs until the current token is not `*`, `/` or `%`. */
  lemma {:induction false} MulLoopStops(ts: Stream, st: PState, lval: real)
    requires WF(ts, st)
    decreases Measure(ts, st)
    ensures var r := MulLoop(ts, st, lval);
      r.Ok? ==> !IsMulOp(Tok(ts, r.value.st).kind)
  {
    if IsMulOp(Tok(ts, st).kind) {
      var a := Advance(ts, st);
      if a.Ok? {
        var e := UnaryExpr(ts, a.value);
        if e.Ok? {
          var v := Arith(Tok(ts, st).kind, lval, e.value.value);
          if v.Ok? {
            MulLoopStops(ts, e.value.st, v.value);
          }
        }
      }
    }
  }

  /** The loop of `_AddExpr` runs until the current token is not `+` or `-`. */
  lemma {:induction false} AddLoopStops(ts: Stream, st: PState, lval: real)
    requires WF(ts, st) && !IsMulOp(Tok(ts, st).kind)
    decreases Measure(ts, st)
    ensures var r := AddLoop(ts, st, lval);
      r.Ok? ==> !IsAddOp(Tok(ts, r.value.st).kind) && !IsMulOp(Tok(ts, r.value.st).kind)
  {
    if IsAddOp(Tok(ts, st).kind) {
      var a := Advance(ts, st);
      if a.Ok? {
        MulExprStops(ts, a.value);
        var e := MulExpr(ts, a.value);
        if e.Ok? {
          AddLoopStops(ts, e.value.st, Sum(Tok(ts, st).kind, lval, e.value.value));
        }
      }
    }
  }

  lemma MulExprStops(ts: Stream, st: PState)
    requires WF(ts, st)
    ensures var r := MulExpr(ts, st);
      r.Ok? ==> !IsMulOp(Tok(ts, r.value.st).kind)
  {
    var e := UnaryExpr(ts, st);
    if e.Ok? {
      MulLoopStops(ts, e.value.st, e.value.value);
    }
  }

  /**
   * An expression that starts well ends at the first token that is not a
   * binary operator: an operator that follows a complete term is always taken.
   */
  lemma AddExprStops(ts: Stream, st: PState)
    requires WF(ts, st)
    ensures var r := AddExpr(ts, st);
      r.Ok? ==> !IsAddOp(Tok(ts, r.value.st).kind) && !IsMulOp(Tok(ts, r.value.st).kind)
  {
    MulExprStops(ts, st);
    var e := MulExpr(ts, st);
    if e.Ok? {
      AddLoopStops(ts, e.value.st, e.value.value);
    }
  }

  /**
   * A line that does not start an expression evaluates to 0: the error is
   * logged at the first token's 1-based column, no further token is pulled
   * and the table is unchanged.
   */
  lemma ParseInvalidStart(ts: Stream, tab: SymTab, log: seq<Diag>)
    requires Terminated(ts) && |ts.scans| > 0 && !StartsExpr(ts.scans[0].tok.kind)
    ensures Evaluation.Parse(ts, tab, log) ==
      Ok(Eval(0.0, PState(1, tab, log + [Diag(ts.scans[0].tok.col + 1, InvalidExprStart)])))
  {
  }

  /**
   * `_UnaryExpr` on a token that can start neither a primary nor a signed
   * expression evaluates to 0: the error is logged at the token's 1-based
   * column, the token is not consumed and the table is unchanged.
   */
  lemma UnaryInvalidStart(ts: Stream, st: PState)
    requires WF(ts, st) && !StartsExpr(Tok(ts, st).kind)
    ensures UnaryExpr(ts, st) ==
      Ok(Eval(0.0, PState(st.pulled, st.tab, st.log + [Diag(Tok(ts, st).col + 1, InvalidUnaryStart)])))
  {
  }

  /**
   * A `*`, `/` or `%` whose right operand cannot start: the operand counts
   * as 0 with its error logged, so `*` goes on with 0 at the token after the
   * operator, while `/` and `%` raise `ZeroDivisionError`.
   */
  lemma MissingDivisor(ts: Stream, st: PState, lval: real)
    requires WF(ts, st) && IsMulOp(Tok(ts, st).kind) && st.pulled < |ts.scans|
    requires !StartsExpr(ts.scans[st.pulled].tok.kind)
    ensures var t := ts.scans[st.pulled].tok;
      var st2 := PState(st.pulled + 1, st.tab, st.log + [Diag(t.col + 1, InvalidUnaryStart)]);
      MulLoop(ts, st, lval) == if Tok(ts, st).kind == TokMul then MulLoop(ts, st2, 0.0) else Err(ZeroDivision)
  {
    var st1 := st.(pulled := st.pulled + 1);
    assert Advance(ts, st) == Ok(st1);
    assert Tok(ts, st1) == ts.scans[st.pulled].tok;
    UnaryInvalidStart(ts, st1);
  }

  /**
   * `name = Expr` binds `name` to the value it returns, nested assignments
   * such as `x = y = 3` included. When the right-hand side holds no further
   * `=`, every other entry stays as it was; when it starts an expression,
   * what follows it is not a binary operator.
   */
  lemma PrimaryAssigns(ts: Stream, st: PState)
    requires WF(ts, st) && Tok(ts, st).kind == TokIdent
    requires st.pulled < |ts.scans| && ts.scans[st.pulled].tok.kind == TokEqual
    ensures var r := PrimaryExpr(ts, st);
      var name := Tok(ts, st).lexeme;
      r.Ok? ==>
        name in r.value.st.tab && r.value.st.tab[name] == Num(r.value.value) &&
        (NoAssignFrom(ts, st.pulled as int + 1) ==> r.value.st.tab == st.tab[name := Num(r.value.value)]) &&
        st.pulled + 2 <= r.value.st.pulled &&
        (st.pulled + 1 < |ts.scans| && StartsExpr(ts.scans[st.pulled + 1].tok.kind) ==>
           !IsAddOp(Tok(ts, r.value.st).kind) && !IsMulOp(Tok(ts, r.value.st).kind))
  {
    AssignSteps(ts, st);
    var r := PrimaryExpr(ts, st);
    if r.Ok? {
      var st2 := st.(pulled := st.pulled + 2);
      ExprSafe(ts, st2);
      AddExprStops(ts, st2);
      assert st2.pulled as int - 1 == st.pulled as int + 1;
    }
  }

  /** The steps of `name = Expr`: the name and the `=` are pulled, then `_Expr` runs and `name` is bound to its value. */
  lemma AssignSteps(ts: Stream, st: PState)
    requires WF(ts, st) && Tok(ts, st).kind == TokIdent
    requires st.pulled < |ts.scans| && ts.scans[st.pulled].tok.kind == TokEqual
    ensures var r := PrimaryExpr(ts, st);
      var st2 := st.(pulled := st.pulled + 2);
      r.Ok? ==>
        st.pulled + 1 < |ts.scans| && WF(ts, st2) && Expr(ts, st2).Ok? &&
        var e := Expr(ts, st2).value;
        r.value == Eval(e.value, e.st.(tab := e.st.tab[Tok(ts, st).lexeme := Num(e.value)]))
  {
    var st1 := st.(pulled := st.pulled + 1);
    assert Advance(ts, st) == Ok(st1);
    assert Tok(ts, st1).kind == TokEqual;
    assert PrimaryExpr(ts, st) == Named(ts, st1, Tok(ts, st).lexeme, Tok(ts, st).col, Tok(ts, st).lexeme in st.tab);
  }

  /**
   * An assignment whose right-hand side starts an expression is a whole
   * `_Expr`: nothing after it is an operator the enclosing loops could take.
   */
  lemma ExprAssigns(ts: Stream, st: PState)
    requires WF(ts, st) && Tok(ts, st).kind == TokIdent
    requires st.pulled + 1 < |ts.scans| && ts.scans[st.pulled].tok.kind == TokEqual
    requires StartsExpr(ts.scans[st.pulled + 1].tok.kind)
    ensures Expr(ts, st) == PrimaryExpr(ts, st)
  {
    PrimaryAssigns(ts, st);
    var p := PrimaryExpr(ts, st);
    assert UnaryExpr(ts, st) == p;
    if p.Ok? {
      assert MulLoop(ts, p.value.st, p.value.value) == p;
      assert AddLoop(ts, p.value.st, p.value.value) == p;
    }
    assert MulExpr(ts, st) == p;
    assert Expr(ts, st) == AddExpr(ts, st);
  }

  /**
   * A chained assignment `x = y = Expr`, whose innermost right-hand side
   * starts an expression, binds `y` and then `x` to the value it returns.
   */
  lemma ChainedAssigns(ts: Stream, st: PState)
    requires WF(ts, st) && Tok(ts, st).kind == TokIdent
    requires st.pulled + 3 < |ts.scans| && ts.scans[st.pulled].tok.kind == TokEqual
    requires ts.scans[st.pulled + 1].tok.kind == TokIdent && ts.scans[st.pulled + 2].tok.kind == TokEqual
    requires StartsExpr(ts.scans[st.pulled + 3].tok.kind)
    ensures var r := PrimaryExpr(ts, st);
      var x := Tok(ts, st).lexeme;
      var y := ts.scans[st.pulled + 1].tok.lexeme;
      r.Ok? ==>
        x in r.value.st.tab && r.value.st.tab[x] == Num(r.value.value) &&
        y in r.value.st.tab && r.value.st.tab[y] == Num(r.value.value)
  {
    var x := Tok(ts, st).lexeme;
    var a1 := Advance(ts, st);
    if a1.Ok? {
      var st1 := a1.value;
      assert Tok(ts, st1).kind == TokEqual;
      var a2 := Advance(ts, st1);
      if a2.Ok? {
        var st2 := a2.value;
        assert Tok(ts, st2) == ts.scans[st.pulled + 1].tok;
        ExprAssigns(ts, st2);
        PrimaryAssigns(ts, st2);
        var e := Expr(ts, st2);
        if e.Ok? {
          assert PrimaryExpr(ts, st) == Ok(Eval(e.value.value, e.value.st.(tab := e.value.st.tab[x := Num(e.value.value)])));
        }
      }
    }
  }

  /**
   * A line `name = Expr` leaves `name` bound. When the right-hand side
   * starts an expression, `name` is bound to the line's value, nested
   * assignments included. When the right-hand side holds no further `=`,
   * `name` is bound to a number and every other entry stays as it was.
   */
  lemma ParseAssigns(ts: Stream, tab: SymTab, log: seq<Diag>)
    requires Terminated(ts) && |ts.scans| > 2
    requires ts.scans[0].tok.kind == TokIdent && ts.scans[1].tok.kind == TokEqual
    ensures var r := Evaluation.Parse(ts, tab, log);
      var name := ts.scans[0].tok.lexeme;
      r.Ok? ==>
        name in r.value.st.tab &&
        (StartsExpr(ts.scans[2].tok.kind) ==> r.value.st.tab[name] == Num(r.value.value)) &&
        (NoAssignFrom(ts, 2) ==> r.value.st.tab[name].Num? && r.value.st.tab == tab[name := r.value.st.tab[name]])
  {
    var st1 := PState(1, tab, log);
    assert Evaluation.Parse(ts, tab, log) == Expr(ts, st1) == AddExpr(ts, st1);
    PrimaryAssigns(ts, st1);
    var p := PrimaryExpr(ts, st1);
    assert UnaryExpr(ts, st1) == p;
    if p.Ok? {
      MulLoopSafe(ts, p.value.st, p.value.value);
      var m := MulLoop(ts, p.value.st, p.value.value);
      assert MulExpr(ts, st1) == m;
      if m.Ok? {
        AddLoopSafe(ts, m.value.st, m.value.value);
        assert AddExpr(ts, st1) == AddLoop(ts, m.value.st, m.value.value);
        var r := AddLoop(ts, m.value.st, m.value.value);
        if r.Ok? {
          assert Extends(ts, p.value.st, m.value.st) && Extends(ts, m.value.st, r.value.st);
          if NoAssignFrom(ts, 2) {
            assert 2 <= p.value.st.pulled as int - 1 <= m.value.st.pulled as int - 1;
            assert r.value.st.tab == m.value.st.tab == p.value.st.tab;
          }
        }
        if StartsExpr(ts.scans[2].tok.kind) {
          assert m == Ok(p.value);
          assert AddLoop(ts, m.value.st, m.value.value) == Ok(p.value);
        }
      }
    }
  }

  /**
   * A bound number read back: an identifier bound to `Num(v)`, followed by
   * a token that is neither `(`, `=` nor a binary operator, evaluates to `v`
   * and consumes the identifier only; the table and the log are untouched.
   */
  lemma ExprReads(ts: Stream, st: PState, v: real)
    requires WF(ts, st) && Tok(ts, st).kind == TokIdent
    requires Tok(ts, st).lexeme in st.tab && st.tab[Tok(ts, st).lexeme] == Num(v)
    requires st.pulled < |ts.scans|
    requires var k := ts.scans[st.pulled].tok.kind;
      k != TokLParen && k != TokEqual && !IsAddOp(k) && !IsMulOp(k)
    ensures Expr(ts, st) == Ok(Eval(v, st.(pulled := st.pulled + 1)))
  {
    var st1 := st.(pulled := st.pulled + 1);
    assert Advance(ts, st) == Ok(st1);
    assert PrimaryExpr(ts, st) == Named(ts, st1, Tok(ts, st).lexeme, Tok(ts, st).col, true) == Ok(Eval(v, st1));
    assert UnaryExpr(ts, st) == Ok(Eval(v, st1));
    assert Tok(ts, st1) == ts.scans[st.pulled].tok;
    assert MulLoop(ts, st1, v) == Ok(Eval(v, st1));
    assert MulExpr(ts, st) == Ok(Eval(v, st1));
    assert AddLoop(ts, st1, v) == Ok(Eval(v, st1));
    assert Expr(ts, st) == AddExpr(ts, st);
  }

  /**
   * An unbound name read: an identifier that is not in the table, followed
   * by a token that is neither `(`, `=` nor a binary operator, evaluates to
   * 0 and consumes the identifier only; the table is untouched and the log
   * gains exactly the undefined-variable error at the identifier's 1-based
   * column.
   */
  lemma ExprUnbound(ts: Stream, st: PState)
    requires WF(ts, st) && Tok(ts, st).kind == TokIdent && Tok(ts, st).lexeme !in st.tab
    requires st.pulled < |ts.scans|
    requires var k := ts.scans[st.pulled].tok.kind;
      k != TokLParen && k != TokEqual && !IsAddOp(k) && !IsMulOp(k)
    ensures Expr(ts, st) ==
      Ok(Eval(0.0, PState(st.pulled + 1, st.tab, st.log + [Diag(Tok(ts, st).col + 1, UndefinedVariable)])))
  {
    var st1 := st.(pulled := st.pulled + 1);
    var st2 := Log(st1, Tok(ts, st).col, UndefinedVariable);
    assert Advance(ts, st) == Ok(st1);
    assert PrimaryExpr(ts, st) == Named(ts, st1, Tok(ts, st).lexeme, Tok(ts, st).col, false) == Ok(Eval(0.0, st2));
    assert UnaryExpr(ts, st) == Ok(Eval(0.0, st2));
    assert Tok(ts, st2) == ts.scans[st.pulled].tok;
    assert MulLoop(ts, st2, 0.0) == Ok(Eval(0.0, st2));
    assert MulExpr(ts, st) == Ok(Eval(0.0, st2));
    assert AddLoop(ts, st2, 0.0) == Ok(Eval(0.0, st2));
    assert Expr(ts, st) == AddExpr(ts, st);
  }

  /** A line that reads a name bound to `Num(v)` evaluates to `v` and changes nothing. */
  lemma ParseReads(ts: Stream, tab: SymTab, log: seq<Diag>, v: real)
    requires Terminated(ts) && |ts.scans| > 1 && ts.scans[0].tok.kind == TokIdent
    requires ts.scans[0].tok.lexeme in tab && tab[ts.scans[0].tok.lexeme] == Num(v)
    requires var k := ts.scans[1].tok.kind;
      k != TokLParen && k != TokEqual && !IsAddOp(k) && !IsMulOp(k)
    ensures Evaluation.Parse(ts, tab, log) == Ok(Eval(v, PState(2, tab, log)))
  {
    var st1 := PState(1, tab, log);
    assert Advance(ts, PState(0, tab, log)) == Ok(st1);
    ExprReads(ts, st1, v);
  }

  /**
   * Read after write across two lines: after a line `name = Expr` whose
   * right-hand side starts an expression, a line that reads `name`
   * evaluates to the value the first line printed.
   */
  lemma WriteThenRead(ts1: Stream, ts2: Stream, tab: SymTab, log: seq<Diag>)
    requires Terminated(ts1) && |ts1.scans| > 2
    requires ts1.scans[0].tok.kind == TokIdent && ts1.scans[1].tok.kind == TokEqual
    requires StartsExpr(ts1.scans[2].tok.kind)
    requires Terminated(ts2) && |ts2.scans| > 1 && ts2.scans[0].tok == ts1.scans[0].tok.(col := ts2.scans[0].tok.col)
    requires var k := ts2.scans[1].tok.kind;
      k != TokLParen && k != TokEqual && !IsAddOp(k) && !IsMulOp(k)
    ensures var r := Evaluation.Parse(ts1, tab, log);
      r.Ok? ==>
        Evaluation.Parse(ts2, r.value.st.tab, r.value.st.log) == Ok(Eval(r.value.value, PState(2, r.value.st.tab, r.value.st.log)))
  {
    ParseAssigns(ts1, tab, log);
    var r := Evaluation.Parse(ts1, tab, log);
    if r.Ok? {
      ParseReads(ts2, r.value.st.tab, r.value.st.log, r.value.value);
    }
  }

  /** Python's `%`: the remainder has the divisor's sign, is smaller than it, and differs from the dividend by a multiple of it. */
  lemma PyModRange(a: real, b: real)
    requires b != 0.0
    ensures var r := PyMod(a, b).value;
      (b > 0.0 ==> 0.0 <= r < b) && (b < 0.0 ==> b < r <= 0.0) &&
      a - r == b * (a / b).Floor as real
  {
    var q := a / b;
    var f := q.Floor as real;
    var r := PyMod(a, b).value;
    assert r == a - b * f;
    assert a == b * q;
    var g := q - f;
    assert 0.0 <= g < 1.0;
    assert r == b * g by {
      assert b * g == b * q - b * f;
    }
    if b > 0.0 {
      assert 0.0 <= b * g < b * 1.0;
    } else {
      assert b * 1.0 < b * g <= 0.0;
    }
  }

  /** Division gives the quotient: multiplied back by the divisor it yields the dividend. */
  lemma DivideExact(a: real, b: real)
    requires b != 0.0
    ensures Arith(TokDivide, a, b) == Ok(a / b) && Arith(TokDivide, a, b).value * b == a
  {
  }

  /** The digits after a decimal point are worth less than one. */
  lemma {:induction false} FractionBelowOne(d: string)
    requires forall i :: 0 <= i < |d| ==> IsDigit(d[i])
    ensures 0.0 <= FractionValue(d) < 1.0
  {
    if d != [] {
      assert forall i :: 0 <= i < |d[1..]| ==> d[1..][i] == d[i + 1];
      FractionBelowOne(d[1..]);
    }
  }

  /** `DotIndex` stops at a '.' or at the end. */
  lemma {:induction false} DotIndexIsDot(t: string, i: nat)
    requires i <= |t|
    decreases |t| - i
    ensures DotIndex(t, i) < |t| ==> t[DotIndex(t, i)] == '.'
  {
    if i < |t| && t[i] != '.' {
      DotIndexIsDot(t, i + 1);
    }
  }

  /** The value of a numeral has its integer part as whole part. */
  lemma NumeralWhole(t: string)
    requires IsNumeral(t)
    ensures NumeralValue(t).Floor == IntegerValue(t[..DotIndex(t, 0)])
  {
    var k := DotIndex(t, 0);
    DotIndexIsDot(t, 0);
    if k < |t| {
      FractionBelowOne(t[k + 1..]);
    } else {
      assert t[..k] == t;
    }
  }
}
