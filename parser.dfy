/**
 * The evaluator of parser.py as the object it is: a `Parser` owns a scanner,
 * reassigns its current token as it consumes input, folds values in loops
 * and writes the symbol table. Each method is proved to do what the function
 * of the same name in module `Evaluation` says.
 */
module RecursiveDescent {
  import opened Wrappers
  import opened Lexer
  import opened LexerFacts
  import opened Evaluation

  class Parser {
    /** `self.tokenizer` */
    const tokenizer: Tokenizer
    /** `self.tok`: the current token */
    var tok: TokenInfo
    /** `sym_tab`: the bindings of variables and built-in functions */
    var symtab: SymTab
    /** The logged errors, oldest first. */
    var diags: seq<Diag>

    /** What the scanner yields, call after call, and how many tokens have been pulled. */
    ghost const stream: Stream
    ghost var pulled: nat

    /** `__init__`, with the symbol table the parser starts from. */
    constructor (line: string, tab: SymTab)
      ensures Valid() && pulled == 0 && tokenizer.s == line && stream == Pulls(line, -1)
      ensures symtab == tab && diags == [] && fresh(tokenizer)
    {
      tokenizer := new Tokenizer(line);
      stream := Pulls(line, -1);
      new;
      PullsFits(line, -1);
      PullsFollow(line, -1);
      pulled := 0;
      // no token has been read before `parse`
      tok := TokenInfo(TokErr, "", -1);
      symtab := tab;
      diags := [];
    }

    /**
     * The scanner is `pulled` calls into its stream: its cursor and printed
     * diagnostics are what those calls left, and the current token is the
     * last one they returned.
     */
    ghost predicate Valid()
      reads this, tokenizer
    {
      Terminated(stream) && (forall k: nat :: Follows(tokenizer.s, -1, stream, k)) &&
      pulled <= |stream.scans| && -1 <= tokenizer.pos &&
      tokenizer.pos == Cursor(-1, stream.scans, pulled) &&
      tokenizer.diags == Printed(stream.scans, pulled) &&
      (0 < pulled ==> tok == stream.scans[pulled - 1].tok)
    }

    /** The state the specification functions act on. */
    ghost function State(): PState
      reads this
    {
      PState(pulled, symtab, diags)
    }

    /** A method's result and final state are the ones `spec` describes. */
    ghost predicate Yields(r: Result<real, EvalFault>, spec: Result<Eval, EvalFault>)
      reads this, tokenizer
    {
      match spec
      case Ok(e) => r == Ok(e.value) && State() == e.st && Valid()
      case Err(f) => r == Err(f)
    }

    /** `self.tok = self.tokenizer.get_next_token()` */
    method Consume() returns (r: Result<TokenInfo, EvalFault>)
      requires Valid() && CanPull(stream, pulled)
      modifies this`tok, this`pulled, tokenizer
      ensures match Advance(stream, old(State()))
              case Ok(st) => r == Ok(tok) && State() == st && Valid()
              case Err(f) => r == Err(f)
    {
      assert Follows(tokenizer.s, -1, stream, pulled);
      NextAdvances(tokenizer.s, tokenizer.pos);
      var t := tokenizer.NextToken();
      match t
      case Err(e) =>
        return Err(ScanFault(e));
      case Ok(next) =>
        tok := next;
        pulled := pulled + 1;
        return Ok(next);
    }

    /** `parse` */
    method Parse() returns (r: Result<real, EvalFault>)
      requires Valid() && pulled == 0
      modifies this`tok, this`pulled, this`symtab, this`diags, tokenizer
      ensures Terminated(stream) && Yields(r, Evaluation.Parse(stream, old(symtab), old(diags)))
    {
      var next :- Consume();
      r := Expr();
    }

    /** `_Expr` */
    method Expr() returns (r: Result<real, EvalFault>)
      requires Valid() && WF(stream, State())
      modifies this`tok, this`pulled, this`symtab, this`diags, tokenizer
      decreases Measure(stream, State()), 10
      ensures Yields(r, Evaluation.Expr(stream, old(State())))
    {
      var result := 0.0;
      if StartsExpr(tok.kind) {
        result :- AddExpr();
      } else {
        diags := diags + [Diag(tok.col + 1, InvalidExprStart)];
      }
      return Ok(result);
    }

    /** `_AddExpr` */
    method AddExpr() returns (r: Result<real, EvalFault>)
      requires Valid() && WF(stream, State())
      modifies this`tok, this`pulled, this`symtab, this`diags, tokenizer
      decreases Measure(stream, State()), 9
      ensures Yields(r, Evaluation.AddExpr(stream, old(State())))
    {
      var lval :- MulExpr();
      while IsAddOp(tok.kind)
        invariant Valid() && WF(stream, State()) && old(pulled) <= pulled
        invariant Evaluation.AddExpr(stream, old(State())) == AddLoop(stream, State(), lval)
        decreases Measure(stream, State())
      {
        var op := tok.kind;
        var next :- Consume();
        var rval :- MulExpr();
        lval := Sum(op, lval, rval);
      }
      return Ok(lval);
    }

    /** `_MulExpr` */
    method MulExpr() returns (r: Result<real, EvalFault>)
      requires Valid() && WF(stream, State())
      modifies this`tok, this`pulled, this`symtab, this`diags, tokenizer
      decreases Measure(stream, State()), 7
      ensures Yields(r, Evaluation.MulExpr(stream, old(State())))
    {
      var lval :- UnaryExpr();
      while IsMulOp(tok.kind)
        invariant Valid() && WF(stream, State()) && old(pulled) <= pulled
        invariant Evaluation.MulExpr(stream, old(State())) == MulLoop(stream, State(), lval)
        decreases Measure(stream, State())
      {
        ghost var s0, lv0 := State(), lval;
        var op := tok.kind;
        var next :- Consume();
        var rval :- UnaryExpr();
        lval :- Arith(op, lval, rval);
        assert MulLoop(stream, s0, lv0) == MulLoop(stream, State(), lval);
      }
      return Ok(lval);
    }

    /** `_UnaryExpr` */
    method UnaryExpr() returns (r: Result<real, EvalFault>)
      requires Valid() && WF(stream, State())
      modifies this`tok, this`pulled, this`symtab, this`diags, tokenizer
      decreases Measure(stream, State()), 5
      ensures Yields(r, Evaluation.UnaryExpr(stream, old(State())))
    {
      var result := 0.0;
      if tok.kind == TokIdent || tok.kind == TokNumber || tok.kind == TokLParen {
        result :- PrimaryExpr();
      } else if tok.kind == TokPlus || tok.kind == TokMinus {
        var op := tok.kind;
        var next :- Consume();
        var v :- UnaryExpr();
        result := Signed(op, v);
      } else {
        diags := diags + [Diag(tok.col + 1, InvalidUnaryStart)];
      }
      return Ok(result);
    }

    /** `_PrimaryExpr`; what follows an identifier is `Named`. */
    method PrimaryExpr() returns (r: Result<real, EvalFault>)
      requires Valid() && WF(stream, State())
      modifies this`tok, this`pulled, this`symtab, this`diags, tokenizer
      decreases Measure(stream, State()), 4
      ensures Yields(r, Evaluation.PrimaryExpr(stream, old(State())))
    {
      var result := 0.0;
      if tok.kind == TokNumber {
        result := NumeralValue(tok.lexeme);
        var next :- Consume();
      } else if tok.kind == TokIdent {
        var name, col, defined := tok.lexeme, tok.col, tok.lexeme in symtab;
        var next :- Consume();
        result :- Named(name, col, defined);
      } else if tok.kind == TokLParen {
        result :- Group();
      }
      return Ok(result);
    }

    /** The parenthesised branch of `_PrimaryExpr` (parser.py:171-177). */
    method Group() returns (r: Result<real, EvalFault>)
      requires Valid() && WF(stream, State()) && tok.kind == TokLParen
      modifies this`tok, this`pulled, this`symtab, this`diags, tokenizer
      decreases Measure(stream, State()), 3
      ensures Yields(r, Evaluation.Group(stream, old(State())))
    {
      var next :- Consume();
      var result :- Expr();
      if tok.kind == TokRParen {
        next :- Consume();
      } else {
        diags := diags + [Diag(tok.col + 1, RParenExpected)];
      }
      return Ok(result);
    }

    /**
     * The identifier branch of `_PrimaryExpr` once the identifier `name` at
     * column `col` has been consumed: a call, an assignment, or a variable
     * read (parser.py:129-169). The flag `is_var_access` becomes the two
     * calls of `VarRead`, here and in `Call`.
     */
    method Named(name: string, col: int, defined: bool) returns (r: Result<real, EvalFault>)
      requires Valid() && WF(stream, State())
      modifies this`tok, this`pulled, this`symtab, this`diags, tokenizer
      decreases Measure(stream, State()), 3
      ensures Yields(r, Evaluation.Named(stream, old(State()), name, col, defined))
    {
      if tok.kind == TokLParen {
        r := Call(name, col, defined);
      } else if tok.kind == TokEqual {
        var next :- Consume();
        var result :- Expr();
        symtab := symtab[name := Num(result)];
        return Ok(result);
      } else {
        r := VarRead(name, col, defined);
      }
    }

    /** A call of `name`, from its `(` on (parser.py:129-162). */
    method Call(name: string, col: int, defined: bool) returns (r: Result<real, EvalFault>)
      requires Valid() && WF(stream, State()) && tok.kind == TokLParen
      modifies this`tok, this`pulled, this`symtab, this`diags, tokenizer
      decreases Measure(stream, State()), 2
      ensures Yields(r, Evaluation.Call(stream, old(State()), name, col, defined))
    {
      var next :- Consume();
      var e :- Expr();
      var argList :- Arguments([e]);
      r := CallEnd(argList, name, col, defined);
    }

    /** The loop over `"," Expr` that collects the rest of a call's arguments (parser.py:137-140). */
    method Arguments(first: seq<real>) returns (r: Result<seq<real>, EvalFault>)
      requires Valid() && WF(stream, State())
      modifies this`tok, this`pulled, this`symtab, this`diags, tokenizer
      decreases Measure(stream, State()), 1
      ensures match ArgLoop(stream, old(State()), first)
              case Ok(a) => r == Ok(a.values) && State() == a.st && Valid()
              case Err(f) => r == Err(f)
    {
      var argList := first;
      while tok.kind == TokComma
        invariant Valid() && WF(stream, State()) && old(pulled) <= pulled
        invariant ArgLoop(stream, old(State()), first) == ArgLoop(stream, State(), argList)
        decreases Measure(stream, State())
      {
        var next :- Consume();
        var e :- Expr();
        argList := argList + [e];
      }
      return Ok(argList);
    }

    /**
     * After a call's arguments `args`: with the `)` the function is applied
     * (or an undefined function logged) and the `)` consumed; without it an
     * error is logged and `name` is read as a variable (parser.py:142-169).
     */
    method CallEnd(args: seq<real>, name: string, col: int, defined: bool) returns (r: Result<real, EvalFault>)
      requires Valid() && WF(stream, State())
      modifies this`tok, this`pulled, this`diags, tokenizer
      ensures Yields(r, Evaluation.CallEnd(stream, Args(args, old(State())), name, col, defined))
    {
      if tok.kind == TokRParen {
        var result := 0.0;
        if defined {
          var b :- Lookup(symtab, name);
          match b
          case Fn(f) =>
            result := f(args);
          case Num(_) =>
            return Err(NotCallable(name));
        } else {
          diags := diags + [Diag(col + 1, UndefinedFunction)];
        }
        var next :- Consume();
        return Ok(result);
      } else {
        diags := diags + [Diag(tok.col + 1, RParenExpected)];
        r := VarRead(name, col, defined);
      }
    }

    /** Reading `name` as a variable (parser.py:164-169). */
    method VarRead(name: string, col: int, defined: bool) returns (r: Result<real, EvalFault>)
      requires Valid() && WF(stream, State())
      modifies this`diags
      ensures Yields(r, Evaluation.VarRead(stream, old(State()), name, col, defined))
    {
      if !defined {
        diags := diags + [Diag(col + 1, UndefinedVariable)];
        return Ok(0.0);
      }
      var b :- Lookup(symtab, name);
      match b
      case Num(v) =>
        return Ok(v);
      case Fn(_) =>
        return Err(NotANumber(name));
    }
  }

  /**
   * One line of the read-evaluate loop (`repl`): a fresh parser over `line`
   * evaluates it against the module-wide table `tab`. Returns the value, the
   * table the next line starts from, and the errors logged.
   */
  method Interpret(line: string, tab: SymTab) returns (r: Result<real, EvalFault>, tab': SymTab, log: seq<Diag>)
    ensures Terminated(Pulls(line, -1))
    ensures match Evaluation.Parse(Pulls(line, -1), tab, [])
            case Ok(e) => r == Ok(e.value) && tab' == e.st.tab && log == e.st.log
            case Err(f) => r == Err(f)
  {
    var parser := new Parser(line, tab);
    r := parser.Parse();
    tab', log := parser.symtab, parser.diags;
  }
}
