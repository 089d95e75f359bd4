/**
 * A reference meaning for the evaluator: arithmetic expressions as trees,
 * their value computed the usual way (operands first, then the operator),
 * and their rendering as tokens with just the brackets that precedence and
 * left association need. The evaluator of parser.py, run on the tokens of
 * any tree, computes the tree's value: `*`, `/` and `%` bind tighter than
 * `+` and `-`, both levels associate to the left, and a sign applies to the
 * operand right after it.
 */
module Reference {
  import opened Wrappers
  import opened Lexer
  import opened LexerFacts
  import opened Evaluation

  datatype Op = Add | Sub | Mul | Div | Mod

  /** Expressions over numerals: a numeral, a signed operand, or a binary operation. */
  datatype Ast = Lit(numeral: string) | Pos(arg: Ast) | Neg(arg: Ast) | Bin(op: Op, left: Ast, right: Ast)

  /** Python's arithmetic on floats (as exact reals): `/` and `%` by zero raise. */
  function Apply(op: Op, a: real, b: real): Result<real, EvalFault> {
    match op
    case Add => Ok(a + b)
    case Sub => Ok(a - b)
    case Mul => Ok(a * b)
    case Div => if b == 0.0 then Err(ZeroDivision) else Ok(a / b)
    case Mod => PyMod(a, b)
  }

  /** The value of a tree: the left operand, then the right one, then the operator. */
  function Value(e: Ast): Result<real, EvalFault> {
    match e
    case Lit(t) => Ok(NumeralValue(t))
    case Pos(x) => Value(x)
    case Neg(x) =>
      var v :- Value(x);
      Ok(-v)
    case Bin(op, l, r) => Combine(op, Value(l), Value(r))
  }

  /** A binary operator on the values of its operands; the left operand's fault comes first. */
  function Combine(op: Op, vl: Result<real, EvalFault>, vr: Result<real, EvalFault>): Result<real, EvalFault> {
    var a :- vl;
    var b :- vr;
    Apply(op, a, b)
  }

  // Rendering a tree as tokens.

  /** A token as the evaluator sees it: its kind and its text. */
  datatype Piece = Piece(kind: Kind, text: string)

  function OpPiece(op: Op): Piece {
    match op
    case Add => Piece(TokPlus, "+")
    case Sub => Piece(TokMinus, "-")
    case Mul => Piece(TokMul, "*")
    case Div => Piece(TokDivide, "/")
    case Mod => Piece(TokMod, "%")
  }

  /** Binding strength: the multiplicative operators bind tighter than the additive ones. */
  function Prec(op: Op): nat {
    if op == Add || op == Sub then 1 else 2
  }

  /** A numeral or a signed operand binds tighter than any binary operator. */
  function Level(e: Ast): nat {
    if e.Bin? then Prec(e.op) else 3
  }

  /**
   * The tokens of `e`. The left operand of an operator is bracketed when it
   * binds more loosely than the operator, the right operand also when it
   * binds exactly as tightly, and the operand of a sign unless it is a
   * numeral or itself signed.
   */
  function Render(e: Ast): seq<Piece>
    decreases e, 0
  {
    match e
    case Lit(t) => [Piece(TokNumber, t)]
    case Pos(x) => [Piece(TokPlus, "+")] + Operand(x, 3)
    case Neg(x) => [Piece(TokMinus, "-")] + Operand(x, 3)
    case Bin(op, l, r) => Operand(l, Prec(op)) + [OpPiece(op)] + Operand(r, Prec(op) + 1)
  }

  /** The tokens of `e` where an operand binding at least at level `min` is expected. */
  function Operand(e: Ast, min: nat): seq<Piece>
    decreases e, 1
  {
    if Level(e) >= min then Render(e)
    else [Piece(TokLParen, "(")] + Render(e) + [Piece(TokRParen, ")")]
  }

  /** The scans of `ts` from index `k` on spell out `ps`. */
  ghost predicate Shows(ts: Stream, k: int, ps: seq<Piece>) {
    0 <= k && k + |ps| <= |ts.scans| &&
    forall i :: 0 <= i < |ps| ==> ts.scans[k + i].tok.kind == ps[i].kind && ts.scans[k + i].tok.lexeme == ps[i].text
  }

  /** From the current token of `st` on, the scans spell out `ps`, and some token follows them. */
  ghost predicate Spells(ts: Stream, st: PState, ps: seq<Piece>) {
    0 < st.pulled && Shows(ts, st.pulled - 1, ps) && st.pulled - 1 + |ps| < |ts.scans|
  }

  /** The kind of the token after the `n` tokens that start at the current one. */
  function Follower(ts: Stream, st: PState, n: nat): Kind
    requires 0 < st.pulled && st.pulled - 1 + n < |ts.scans|
  {
    ts.scans[st.pulled - 1 + n].tok.kind
  }

  /** `st` after `n` more tokens have been pulled. */
  function Skip(st: PState, n: nat): PState {
    st.(pulled := st.pulled + n)
  }

  /** A production's outcome is the value `v` with final state `st`, or the fault of `v`. */
  ghost predicate Gives(r: Result<Eval, EvalFault>, v: Result<real, EvalFault>, st: PState) {
    match v
    case Ok(x) => r == Ok(Eval(x, st))
    case Err(f) => r == Err(f)
  }

  // Lemmas about the rendering.

  lemma ShowsSplit(ts: Stream, k: int, a: seq<Piece>, b: seq<Piece>)
    requires Shows(ts, k, a + b)
    ensures Shows(ts, k, a) && Shows(ts, k + |a|, b)
  {
    forall i | 0 <= i < |a|
      ensures ts.scans[k + i].tok.kind == a[i].kind && ts.scans[k + i].tok.lexeme == a[i].text
    {
      assert (a + b)[i] == a[i];
    }
    forall i | 0 <= i < |b|
      ensures ts.scans[k + |a| + i].tok.kind == b[i].kind && ts.scans[k + |a| + i].tok.lexeme == b[i].text
    {
      assert (a + b)[|a| + i] == b[i];
    }
  }

  /** Every rendering starts with a token in the first set of `Expr`. */
  lemma {:induction false} RenderStarts(e: Ast)
    ensures |Render(e)| > 0 && StartsExpr(Render(e)[0].kind)
  {
    match e
    case Lit(_) =>
    case Pos(_) =>
    case Neg(_) =>
    case Bin(op, l, r) =>
      var ol := Operand(l, Prec(op));
      if Level(l) >= Prec(op) {
        RenderStarts(l);
      }
      assert Render(e)[0] == ol[0];
  }

  /** The current token is the first piece spelled out. */
  lemma SpellsFirst(ts: Stream, st: PState, ps: seq<Piece>)
    requires Spells(ts, st, ps) && |ps| > 0
    ensures Tok(ts, st).kind == ps[0].kind && Tok(ts, st).lexeme == ps[0].text
  {
    assert ts.scans[st.pulled - 1 + 0].tok.kind == ps[0].kind;
  }

  /** A binary operation spelled out: its left operand, its operator, then its right operand. */
  lemma SpellsBin(ts: Stream, st: PState, ol: seq<Piece>, p: Piece, or: seq<Piece>)
    requires Spells(ts, st, ol + [p] + or)
    ensures Spells(ts, st, ol) && Follower(ts, st, |ol|) == p.kind
    ensures Spells(ts, Skip(st, |ol| + 1), or)
    ensures Follower(ts, Skip(st, |ol| + 1), |or|) == Follower(ts, st, |ol + [p] + or|)
  {
    ShowsSplit(ts, st.pulled - 1, ol + [p], or);
    ShowsSplit(ts, st.pulled - 1, ol, [p]);
    assert ts.scans[st.pulled - 1 + |ol| + 0].tok.kind == [p][0].kind;
  }

  /** A bracketed expression spelled out: `(`, the expression, then `)`. */
  lemma SpellsParen(ts: Stream, st: PState, rs: seq<Piece>)
    requires Spells(ts, st, [Piece(TokLParen, "(")] + rs + [Piece(TokRParen, ")")])
    ensures Tok(ts, st).kind == TokLParen
    ensures Spells(ts, Skip(st, 1), rs) && Follower(ts, Skip(st, 1), |rs|) == TokRParen
  {
    var ps := [Piece(TokLParen, "(")] + rs + [Piece(TokRParen, ")")];
    SpellsFirst(ts, st, ps);
    assert [] + [Piece(TokLParen, "(")] + (rs + [Piece(TokRParen, ")")]) == ps;
    SpellsBin(ts, st, [], Piece(TokLParen, "("), rs + [Piece(TokRParen, ")")]);
    var st1 := Skip(st, 1);
    ShowsSplit(ts, st1.pulled - 1, rs, [Piece(TokRParen, ")")]);
    assert ts.scans[st1.pulled - 1 + |rs| + 0].tok.kind == [Piece(TokRParen, ")")][0].kind;
  }

  /** After spelled-out tokens the state is one productions can run in. */
  lemma SkipWF(ts: Stream, st: PState, ps: seq<Piece>)
    requires WF(ts, st) && Spells(ts, st, ps)
    ensures WF(ts, Skip(st, |ps|))
  {
  }

  /**
   * A binary operation spelled out, in the terms the productions need: the
   * operator is the current token once the left operand has been consumed.
   */
  lemma SpellsSplit(ts: Stream, st: PState, ol: seq<Piece>, p: Piece, or: seq<Piece>)
    requires WF(ts, st) && Spells(ts, st, ol + [p] + or)
    ensures Spells(ts, st, ol) && WF(ts, Skip(st, |ol|)) && Skip(st, |ol|).pulled < |ts.scans|
    ensures Tok(ts, Skip(st, |ol|)).kind == p.kind && Follower(ts, st, |ol|) == p.kind
    ensures WF(ts, Skip(Skip(st, |ol|), 1)) && Spells(ts, Skip(Skip(st, |ol|), 1), or)
    ensures Follower(ts, Skip(Skip(st, |ol|), 1), |or|) == Follower(ts, st, |ol + [p] + or|)
    ensures Skip(Skip(st, |ol|), 1 + |or|) == Skip(st, |ol + [p] + or|) && WF(ts, Skip(st, |ol + [p] + or|))
  {
    SpellsBin(ts, st, ol, p, or);
    SkipWF(ts, st, ol + [p] + or);
    assert Skip(Skip(st, |ol|), 1) == Skip(st, |ol| + 1);
  }

  /** The operator pieces and what the evaluator does with them. */
  lemma ApplyArith(op: Op, a: real, b: real)
    ensures Prec(op) == 2 ==> IsMulOp(OpPiece(op).kind) && Apply(op, a, b) == Arith(OpPiece(op).kind, a, b)
    ensures Prec(op) == 1 ==> IsAddOp(OpPiece(op).kind) && Apply(op, a, b) == Ok(Sum(OpPiece(op).kind, a, b))
  {
  }

  /** The tokens of a multiplicative operation, taken apart. */
  lemma MulLayout(ts: Stream, st: PState, e: Ast)
    requires Level(e) == 2 && WF(ts, st) && Spells(ts, st, Operand(e, 2))
    ensures var ol, or := Operand(e.left, 2), Operand(e.right, 3);
      var sto := Skip(st, |ol|);
      Spells(ts, st, ol) && WF(ts, sto) && sto.pulled < |ts.scans| && Tok(ts, sto).kind == OpPiece(e.op).kind &&
      WF(ts, Skip(sto, 1)) && Spells(ts, Skip(sto, 1), or) &&
      Skip(sto, 1 + |or|) == Skip(st, |Operand(e, 2)|) && WF(ts, Skip(st, |Operand(e, 2)|))
  {
    var ol, or := Operand(e.left, 2), Operand(e.right, 3);
    assert Operand(e, 2) == Render(e) == ol + [OpPiece(e.op)] + or;
    SpellsSplit(ts, st, ol, OpPiece(e.op), or);
  }

  /** The tokens of an additive operation, taken apart. */
  lemma AddLayout(ts: Stream, st: PState, e: Ast)
    requires Level(e) == 1 && WF(ts, st) && Spells(ts, st, Render(e))
    ensures var ol, or := Operand(e.left, 1), Operand(e.right, 2);
      var sto := Skip(st, |ol|);
      Spells(ts, st, ol) && WF(ts, sto) && sto.pulled < |ts.scans| && Tok(ts, sto).kind == OpPiece(e.op).kind &&
      !IsMulOp(Follower(ts, st, |ol|)) &&
      WF(ts, Skip(sto, 1)) && Spells(ts, Skip(sto, 1), or) &&
      Follower(ts, Skip(sto, 1), |or|) == Follower(ts, st, |Render(e)|) &&
      Skip(sto, 1 + |or|) == Skip(st, |Render(e)|) && WF(ts, Skip(st, |Render(e)|))
  {
    var ol, or := Operand(e.left, 1), Operand(e.right, 2);
    var p := OpPiece(e.op);
    assert e.op == Add || e.op == Sub;
    assert !IsMulOp(p.kind);
    assert Render(e) == ol + [p] + or;
    SpellsSplit(ts, st, ol, p, or);
  }

  /** Every tree binds at least as tightly as `+` and `-`. */
  lemma OperandLoosest(e: Ast)
    ensures Operand(e, 1) == Render(e)
  {
  }

  // How far a production has got: `_MulExpr` (or `_AddExpr`) from `st` has
  // evaluated its operands so far to `v` and its loop goes on at `st2`;
  // the loop of `_MulExpr` (or `_AddExpr`) from `st` with accumulated value
  // `a` comes to `v` and goes on at `st2`.

  ghost predicate MulFrom(ts: Stream, st: PState, v: Result<real, EvalFault>, st2: PState) {
    WF(ts, st) && WF(ts, st2) &&
    if v.Ok? then MulExpr(ts, st) == MulLoop(ts, st2, v.value) else MulExpr(ts, st) == Err(v.error)
  }

  ghost predicate AddFrom(ts: Stream, st: PState, v: Result<real, EvalFault>, st2: PState) {
    WF(ts, st) && WF(ts, st2) &&
    if v.Ok? then AddExpr(ts, st) == AddLoop(ts, st2, v.value) else AddExpr(ts, st) == Err(v.error)
  }

  ghost predicate MulLoopFrom(ts: Stream, st: PState, a: real, v: Result<real, EvalFault>, st2: PState) {
    WF(ts, st) && WF(ts, st2) &&
    if v.Ok? then MulLoop(ts, st, a) == MulLoop(ts, st2, v.value) else MulLoop(ts, st, a) == Err(v.error)
  }

  ghost predicate AddLoopFrom(ts: Stream, st: PState, a: real, v: Result<real, EvalFault>, st2: PState) {
    WF(ts, st) && WF(ts, st2) &&
    if v.Ok? then AddLoop(ts, st, a) == AddLoop(ts, st2, v.value) else AddLoop(ts, st, a) == Err(v.error)
  }

  // The productions' steps, over token positions only.

  /** `_MulExpr` starts with its first operand. */
  lemma MulStart(ts: Stream, st: PState, v: Result<real, EvalFault>, st2: PState)
    requires WF(ts, st) && WF(ts, st2) && Gives(UnaryExpr(ts, st), v, st2)
    ensures MulFrom(ts, st, v, st2)
  {
  }

  /** `_MulExpr` stops at a token that is not `*`, `/` or `%`. */
  lemma MulStops(ts: Stream, st: PState, v: Result<real, EvalFault>, st2: PState)
    requires MulFrom(ts, st, v, st2) && !IsMulOp(Tok(ts, st2).kind)
    ensures Gives(MulExpr(ts, st), v, st2)
  {
  }

  /** `_AddExpr` starts with its first operand. */
  lemma AddStart(ts: Stream, st: PState, v: Result<real, EvalFault>, st2: PState)
    requires WF(ts, st) && WF(ts, st2) && Gives(MulExpr(ts, st), v, st2)
    ensures AddFrom(ts, st, v, st2)
  {
  }

  /** `_AddExpr` stops at a token that is not `+` or `-`. */
  lemma AddStops(ts: Stream, st: PState, v: Result<real, EvalFault>, st2: PState)
    requires AddFrom(ts, st, v, st2) && !IsAddOp(Tok(ts, st2).kind)
    ensures Gives(AddExpr(ts, st), v, st2)
  {
  }

  /** One round of `_MulExpr`'s loop on `op`, given the outcome of its right operand. */
  lemma MulLoopRound(ts: Stream, st: PState, op: Op, a: real, v: Result<real, EvalFault>, st2: PState)
    requires Prec(op) == 2 && WF(ts, st) && st.pulled < |ts.scans| && Tok(ts, st).kind == OpPiece(op).kind
    requires WF(ts, st2) && Gives(UnaryExpr(ts, Skip(st, 1)), v, st2)
    ensures MulLoopFrom(ts, st, a, Combine(op, Ok(a), v), st2)
  {
    assert Advance(ts, st) == Ok(Skip(st, 1));
    ApplyArith(op, a, 0.0);
    if v.Ok? {
      ApplyArith(op, a, v.value);
    }
  }

  /** One round of `_AddExpr`'s loop on `op`, given the outcome of its right operand. */
  lemma AddLoopRound(ts: Stream, st: PState, op: Op, a: real, v: Result<real, EvalFault>, st2: PState)
    requires Prec(op) == 1 && WF(ts, st) && st.pulled < |ts.scans| && Tok(ts, st).kind == OpPiece(op).kind
    requires WF(ts, st2) && Gives(MulExpr(ts, Skip(st, 1)), v, st2)
    ensures AddLoopFrom(ts, st, a, Combine(op, Ok(a), v), st2)
  {
    assert Advance(ts, st) == Ok(Skip(st, 1));
    ApplyArith(op, a, 0.0);
    if v.Ok? {
      ApplyArith(op, a, v.value);
    }
  }

  /** `_MulExpr` after a left operand of value `vl`, an operator and a right operand. */
  lemma MulThen(ts: Stream, st: PState, op: Op, vl: Result<real, EvalFault>, vr: Result<real, EvalFault>, sto: PState, st2: PState)
    requires MulFrom(ts, st, vl, sto) && WF(ts, st2)
    requires vl.Ok? ==> MulLoopFrom(ts, sto, vl.value, Combine(op, Ok(vl.value), vr), st2)
    ensures MulFrom(ts, st, Combine(op, vl, vr), st2)
  {
  }

  /** `_AddExpr` after a left operand of value `vl`, an operator and a right operand. */
  lemma AddThen(ts: Stream, st: PState, op: Op, vl: Result<real, EvalFault>, vr: Result<real, EvalFault>, sto: PState, st2: PState)
    requires AddFrom(ts, st, vl, sto) && WF(ts, st2)
    requires vl.Ok? ==> AddLoopFrom(ts, sto, vl.value, Combine(op, Ok(vl.value), vr), st2)
    ensures AddFrom(ts, st, Combine(op, vl, vr), st2)
  {
  }

  /** A sign, then an operand of `n` tokens. */
  lemma SignStep(ts: Stream, st: PState, v: Result<real, EvalFault>, n: nat, m: nat, w: Result<real, EvalFault>)
    requires m == 1 + n
    requires WF(ts, st) && (Tok(ts, st).kind == TokPlus || Tok(ts, st).kind == TokMinus)
    requires st.pulled < |ts.scans| && WF(ts, Skip(st, 1))
    requires Gives(UnaryExpr(ts, Skip(st, 1)), v, Skip(Skip(st, 1), n))
    requires w == if v.Ok? then Ok(Signed(Tok(ts, st).kind, v.value)) else v
    ensures Gives(UnaryExpr(ts, st), w, Skip(st, m))
  {
    assert Advance(ts, st) == Ok(Skip(st, 1));
    assert Skip(Skip(st, 1), n) == Skip(st, m);
  }

  /** `(`, an expression of `n` tokens, then `)`. */
  lemma GroupStep(ts: Stream, st: PState, v: Result<real, EvalFault>, n: nat, m: nat)
    requires m == n + 2
    requires WF(ts, st) && Tok(ts, st).kind == TokLParen
    requires st.pulled + n + 1 < |ts.scans| && ts.scans[st.pulled + n].tok.kind == TokRParen
    requires WF(ts, Skip(st, 1))
    requires Gives(Expr(ts, Skip(st, 1)), v, Skip(Skip(st, 1), n))
    ensures Gives(UnaryExpr(ts, st), v, Skip(st, m))
  {
    assert UnaryExpr(ts, st) == PrimaryExpr(ts, st) == Group(ts, st);
    assert Advance(ts, st) == Ok(Skip(st, 1));
    if v.Ok? {
      var sti := Skip(Skip(st, 1), n);
      assert Tok(ts, sti).kind == TokRParen;
      assert Advance(ts, sti) == Ok(Skip(st, m));
    }
  }

  // The evaluator on rendered trees, one lemma per production. The
  // second component of each `decreases` orders the productions that
  // work on the same tree: which calls which depends on the tree's level.

  function UnaryRank(e: Ast): nat {
    if Level(e) == 1 then 4 else if Level(e) == 2 then 5 else 1
  }

  function MulRank(e: Ast): nat {
    if Level(e) == 1 then 5 else if Level(e) == 2 then 1 else 2
  }

  /** `_UnaryExpr` on an operand of a sign yields the operand's value and consumes exactly its tokens. */
  lemma {:induction false} UnaryRender(ts: Stream, st: PState, e: Ast)
    requires WF(ts, st) && Spells(ts, st, Operand(e, 3))
    decreases e, UnaryRank(e)
    ensures WF(ts, Skip(st, |Operand(e, 3)|)) && Gives(UnaryExpr(ts, st), Value(e), Skip(st, |Operand(e, 3)|))
  {
    SkipWF(ts, st, Operand(e, 3));
    match e
    case Lit(t) =>
      assert Operand(e, 3) == Render(e) == [Piece(TokNumber, t)];
      SpellsFirst(ts, st, Operand(e, 3));
      assert Advance(ts, st) == Ok(Skip(st, 1));
    case Pos(x) =>
      UnarySign(ts, st, e, x);
    case Neg(x) =>
      UnarySign(ts, st, e, x);
    case Bin(_, _, _) =>
      UnaryGroup(ts, st, e);
  }

  lemma {:induction false} UnarySign(ts: Stream, st: PState, e: Ast, x: Ast)
    requires e == Pos(x) || e == Neg(x)
    requires WF(ts, st) && Spells(ts, st, Operand(e, 3))
    decreases e, 0
    ensures Gives(UnaryExpr(ts, st), Value(e), Skip(st, |Operand(e, 3)|))
  {
    var sign := if e.Pos? then Piece(TokPlus, "+") else Piece(TokMinus, "-");
    var ox := Operand(x, 3);
    assert Operand(e, 3) == [sign] + ox;
    SpellsHead(ts, st, sign, ox);
    UnaryRender(ts, Skip(st, 1), x);
    assert Value(e) == if Value(x).Ok? then Ok(Signed(sign.kind, Value(x).value)) else Value(x);
    SignStep(ts, st, Value(x), |ox|, |Operand(e, 3)|, Value(e));
  }

  lemma {:induction false} UnaryGroup(ts: Stream, st: PState, e: Ast)
    requires e.Bin? && WF(ts, st) && Spells(ts, st, Operand(e, 3))
    decreases e, UnaryRank(e) - 1
    ensures Gives(UnaryExpr(ts, st), Value(e), Skip(st, |Operand(e, 3)|))
  {
    var rs := Render(e);
    assert Operand(e, 3) == [Piece(TokLParen, "(")] + rs + [Piece(TokRParen, ")")];
    SpellsParen(ts, st, rs);
    ExprRender(ts, Skip(st, 1), e);
    GroupStep(ts, st, Value(e), |rs|, |Operand(e, 3)|);
  }

  /**
   * `_MulExpr` on an operand of `*`, `/` or `%` first evaluates exactly its
   * tokens to its value, and then goes on with that value as its left operand.
   */
  lemma {:induction false} MulRender(ts: Stream, st: PState, e: Ast)
    requires WF(ts, st) && Spells(ts, st, Operand(e, 2))
    decreases e, MulRank(e)
    ensures MulFrom(ts, st, Value(e), Skip(st, |Operand(e, 2)|))
  {
    if Level(e) != 2 {
      assert Operand(e, 2) == Operand(e, 3);
      UnaryRender(ts, st, e);
      MulStart(ts, st, Value(e), Skip(st, |Operand(e, 2)|));
    } else {
      MulBin(ts, st, e);
    }
  }

  lemma {:induction false} MulBin(ts: Stream, st: PState, e: Ast)
    requires Level(e) == 2 && WF(ts, st) && Spells(ts, st, Operand(e, 2))
    decreases e, 0
    ensures MulFrom(ts, st, Value(e), Skip(st, |Operand(e, 2)|))
  {
    var sto := Skip(st, |Operand(e.left, 2)|);
    var st2 := Skip(sto, 1 + |Operand(e.right, 3)|);
    MulLayout(ts, st, e);
    MulRender(ts, st, e.left);
    if Value(e.left).Ok? {
      MulRight(ts, sto, e.op, Value(e.left).value, e.right);
    }
    MulThen(ts, st, e.op, Value(e.left), Value(e.right), sto, st2);
  }

  /** One round of `_MulExpr`'s loop on the operator `op` and the tokens of its right operand. */
  lemma {:induction false} MulRight(ts: Stream, st: PState, op: Op, a: real, r: Ast)
    requires Prec(op) == 2 && WF(ts, st) && st.pulled < |ts.scans| && Tok(ts, st).kind == OpPiece(op).kind
    requires WF(ts, Skip(st, 1)) && Spells(ts, Skip(st, 1), Operand(r, 3))
    decreases r, 7
    ensures MulLoopFrom(ts, st, a, Combine(op, Ok(a), Value(r)), Skip(st, 1 + |Operand(r, 3)|))
  {
    UnaryRender(ts, Skip(st, 1), r);
    assert Skip(Skip(st, 1), |Operand(r, 3)|) == Skip(st, 1 + |Operand(r, 3)|);
    MulLoopRound(ts, st, op, a, Value(r), Skip(st, 1 + |Operand(r, 3)|));
  }

  /**
   * `_AddExpr` on the tokens of `e`, followed by a token that is not `*`,
   * `/` or `%`, first evaluates exactly those tokens to the value of `e`, and
   * then goes on with that value as its left operand.
   */
  lemma {:induction false} AddRender(ts: Stream, st: PState, e: Ast)
    requires WF(ts, st) && Spells(ts, st, Render(e)) && !IsMulOp(Follower(ts, st, |Render(e)|))
    decreases e, Level(e)
    ensures AddFrom(ts, st, Value(e), Skip(st, |Render(e)|))
  {
    if Level(e) >= 2 {
      assert Operand(e, 2) == Render(e);
      MulRender(ts, st, e);
      MulStops(ts, st, Value(e), Skip(st, |Render(e)|));
      AddStart(ts, st, Value(e), Skip(st, |Render(e)|));
    } else {
      AddBin(ts, st, e);
    }
  }

  lemma {:induction false} AddBin(ts: Stream, st: PState, e: Ast)
    requires Level(e) == 1 && WF(ts, st) && Spells(ts, st, Render(e)) && !IsMulOp(Follower(ts, st, |Render(e)|))
    decreases e, 0
    ensures AddFrom(ts, st, Value(e), Skip(st, |Render(e)|))
  {
    var sto := Skip(st, |Render(e.left)|);
    var st2 := Skip(sto, 1 + |Operand(e.right, 2)|);
    AddLayout(ts, st, e);
    OperandLoosest(e.left);
    AddRender(ts, st, e.left);
    if Value(e.left).Ok? {
      AddRight(ts, sto, e.op, Value(e.left).value, e.right);
    }
    AddThen(ts, st, e.op, Value(e.left), Value(e.right), sto, st2);
  }

  /**
   * One round of `_AddExpr`'s loop on the operator `op` and the tokens of its
   * right operand, followed by a token that is not `*`, `/` or `%`.
   */
  lemma {:induction false} AddRight(ts: Stream, st: PState, op: Op, a: real, r: Ast)
    requires Prec(op) == 1 && WF(ts, st) && st.pulled < |ts.scans| && Tok(ts, st).kind == OpPiece(op).kind
    requires WF(ts, Skip(st, 1)) && Spells(ts, Skip(st, 1), Operand(r, 2))
    requires !IsMulOp(Follower(ts, Skip(st, 1), |Operand(r, 2)|))
    decreases r, 8
    ensures AddLoopFrom(ts, st, a, Combine(op, Ok(a), Value(r)), Skip(st, 1 + |Operand(r, 2)|))
  {
    MulOperand(ts, Skip(st, 1), r);
    assert Skip(Skip(st, 1), |Operand(r, 2)|) == Skip(st, 1 + |Operand(r, 2)|);
    AddLoopRound(ts, st, op, a, Value(r), Skip(st, 1 + |Operand(r, 2)|));
  }

  /** `_MulExpr` on the right operand of `+` or `-`, followed by a token that is not `*`, `/` or `%`. */
  lemma {:induction false} MulOperand(ts: Stream, st: PState, r: Ast)
    requires WF(ts, st) && Spells(ts, st, Operand(r, 2)) && !IsMulOp(Follower(ts, st, |Operand(r, 2)|))
    decreases r, 7
    ensures WF(ts, Skip(st, |Operand(r, 2)|)) && Gives(MulExpr(ts, st), Value(r), Skip(st, |Operand(r, 2)|))
  {
    MulRender(ts, st, r);
    MulStops(ts, st, Value(r), Skip(st, |Operand(r, 2)|));
  }

  /**
   * `_Expr` on the tokens of any tree, followed by a token that is not a
   * binary operator, yields the tree's value (or its fault) and consumes
   * exactly those tokens; the table and the log are untouched.
   */
  lemma {:induction false} ExprRender(ts: Stream, st: PState, e: Ast)
    requires WF(ts, st) && Spells(ts, st, Render(e))
    requires !IsAddOp(Follower(ts, st, |Render(e)|)) && !IsMulOp(Follower(ts, st, |Render(e)|))
    decreases e, Level(e) + 1
    ensures Gives(Expr(ts, st), Value(e), Skip(st, |Render(e)|))
  {
    RenderStarts(e);
    SpellsFirst(ts, st, Render(e));
    AddRender(ts, st, e);
    AddStops(ts, st, Value(e), Skip(st, |Render(e)|));
  }

  /**
   * A line whose tokens spell out a tree, followed by a token that is not a
   * binary operator, evaluates to the tree's value or raises its fault.
   */
  lemma ParseRender(ts: Stream, tab: SymTab, log: seq<Diag>, e: Ast)
    requires Terminated(ts) && Shows(ts, 0, Render(e)) && |Render(e)| < |ts.scans|
    requires !IsAddOp(ts.scans[|Render(e)|].tok.kind) && !IsMulOp(ts.scans[|Render(e)|].tok.kind)
    ensures Gives(Evaluation.Parse(ts, tab, log), Value(e), PState(|Render(e)| + 1, tab, log))
  {
    var st1 := PState(1, tab, log);
    assert Advance(ts, PState(0, tab, log)) == Ok(st1);
    ExprRender(ts, st1, e);
  }

  /**
   * `_Expr` on a token of its first set, when `_UnaryExpr` from there gives
   * `v` and stops before a token that is not a binary operator.
   */
  lemma ExprFromUnary(ts: Stream, st: PState, v: Result<real, EvalFault>, st2: PState)
    requires WF(ts, st) && StartsExpr(Tok(ts, st).kind) && WF(ts, st2)
    requires Gives(UnaryExpr(ts, st), v, st2)
    requires !IsAddOp(Tok(ts, st2).kind) && !IsMulOp(Tok(ts, st2).kind)
    ensures Gives(Expr(ts, st), v, st2)
  {
    MulStart(ts, st, v, st2);
    MulStops(ts, st, v, st2);
    AddStart(ts, st, v, st2);
    AddStops(ts, st, v, st2);
  }

  /** Pieces spelled out one after the other. */
  lemma SpellsCat(ts: Stream, st: PState, a: seq<Piece>, b: seq<Piece>)
    requires Spells(ts, st, a + b)
    ensures Spells(ts, st, a) && Spells(ts, Skip(st, |a|), b)
    ensures Follower(ts, Skip(st, |a|), |b|) == Follower(ts, st, |a + b|)
    ensures Follower(ts, st, |a|) == if b == [] then Follower(ts, st, |a + b|) else b[0].kind
  {
    ShowsSplit(ts, st.pulled - 1, a, b);
    if b != [] {
      assert ts.scans[st.pulled - 1 + |a| + 0].tok.kind == b[0].kind;
    }
  }

  /** The piece `p` spelled out before the pieces `rs`. */
  lemma SpellsHead(ts: Stream, st: PState, p: Piece, rs: seq<Piece>)
    requires WF(ts, st) && Spells(ts, st, [p] + rs)
    ensures Tok(ts, st).kind == p.kind && st.pulled + |rs| < |ts.scans|
    ensures WF(ts, Skip(st, 1)) && Spells(ts, Skip(st, 1), rs)
    ensures Follower(ts, Skip(st, 1), |rs|) == Follower(ts, st, 1 + |rs|) == ts.scans[st.pulled + |rs|].tok.kind
  {
    assert [] + [p] + rs == [p] + rs;
    SpellsSplit(ts, st, [], p, rs);
    assert Skip(Skip(st, 0), 1) == Skip(st, 1);
  }

  /**
   * A group whose `)` is missing: `(`, the tokens of `e`, then a token that
   * is neither `)` nor a binary operator. The group keeps the inner value,
   * and logs the missing `)` at that token's 1-based column without
   * consuming it.
   */
  lemma GroupUnclosed(ts: Stream, st: PState, e: Ast)
    requires WF(ts, st) && Spells(ts, st, [Piece(TokLParen, "(")] + Render(e))
    requires var k := Follower(ts, st, 1 + |Render(e)|); k != TokRParen && !IsAddOp(k) && !IsMulOp(k)
    ensures Gives(UnaryExpr(ts, st), Value(e), Log(Skip(st, 1 + |Render(e)|), ts.scans[st.pulled + |Render(e)|].tok.col, RParenExpected))
  {
    SpellsHead(ts, st, Piece(TokLParen, "("), Render(e));
    ExprRender(ts, Skip(st, 1), e);
    GroupOpenStep(ts, st, Value(e), |Render(e)|);
  }

  /** `(`, then an expression of `n` tokens, then a token other than `)`. */
  lemma GroupOpenStep(ts: Stream, st: PState, v: Result<real, EvalFault>, n: nat)
    requires WF(ts, st) && Tok(ts, st).kind == TokLParen
    requires st.pulled + n < |ts.scans| && ts.scans[st.pulled + n].tok.kind != TokRParen
    requires WF(ts, Skip(st, 1)) && Gives(Expr(ts, Skip(st, 1)), v, Skip(Skip(st, 1), n))
    ensures Gives(UnaryExpr(ts, st), v, Log(Skip(st, 1 + n), ts.scans[st.pulled + n].tok.col, RParenExpected))
  {
    assert UnaryExpr(ts, st) == PrimaryExpr(ts, st) == Group(ts, st);
    assert Advance(ts, st) == Ok(Skip(st, 1));
    var sti := Skip(Skip(st, 1), n);
    assert sti == Skip(st, 1 + n);
    assert Tok(ts, sti) == ts.scans[st.pulled + n].tok;
  }

  // Calls of built-in functions on rendered arguments.

  /** The tokens of further arguments: `,` and the tokens of each of `es` in turn. */
  function CommaArgs(es: seq<Ast>): seq<Piece> {
    if es == [] then [] else [Piece(TokComma, ",")] + Render(es[0]) + CommaArgs(es[1..])
  }

  /** The tokens of a call's bracketed arguments `e0`, `es`, up to but not including its `)`. */
  function CallPieces(e0: Ast, es: seq<Ast>): seq<Piece> {
    [Piece(TokLParen, "(")] + Render(e0) + CommaArgs(es)
  }

  /** The values of arguments, evaluated from left to right; the first fault is raised. */
  function Values(es: seq<Ast>): Result<seq<real>, EvalFault> {
    if es == [] then Ok([]) else ConsValues(Value(es[0]), Values(es[1..]))
  }

  /** The value `v` of a first argument before the values `vs` of the others, or the first fault. */
  function ConsValues(v: Result<real, EvalFault>, vs: Result<seq<real>, EvalFault>): Result<seq<real>, EvalFault> {
    match v
    case Err(f) => Err(f)
    case Ok(x) =>
      match vs
      case Err(f) => Err(f)
      case Ok(xs) => Ok([x] + xs)
  }

  /** A call's value: `f` applied to the argument values, or the first argument's fault. */
  function Applied(f: seq<real> -> real, vs: Result<seq<real>, EvalFault>): Result<real, EvalFault> {
    var xs :- vs;
    Ok(f(xs))
  }

  /** The outcome `x` once the arguments have been evaluated, or the first argument's fault. */
  function After(vs: Result<seq<real>, EvalFault>, x: Result<real, EvalFault>): Result<real, EvalFault> {
    var xs :- vs;
    x
  }

  /**
   * The argument loop on the tokens of further arguments, followed by a
   * token that is neither `,` nor a binary operator, appends their values
   * in order and consumes exactly their tokens, or raises the first fault.
   */
  lemma {:induction false} ArgLoopRender(ts: Stream, st: PState, args: seq<real>, es: seq<Ast>)
    requires WF(ts, st) && Spells(ts, st, CommaArgs(es))
    requires var k := Follower(ts, st, |CommaArgs(es)|); k != TokComma && !IsAddOp(k) && !IsMulOp(k)
    decreases |es|, 1
    ensures WF(ts, Skip(st, |CommaArgs(es)|))
    ensures var r := ArgLoop(ts, st, args);
      if Values(es).Ok? then r == Ok(Args(args + Values(es).value, Skip(st, |CommaArgs(es)|)))
      else r == Err(Values(es).error)
  {
    SkipWF(ts, st, CommaArgs(es));
    if es == [] {
      assert Tok(ts, st).kind == Follower(ts, st, 0);
      assert args + [] == args && Skip(st, 0) == st;
      assert ArgLoop(ts, st, args) == Ok(Args(args, st));
    } else {
      ArgLoopCons(ts, st, args, es);
    }
  }

  /** `ArgLoopRender` for at least one more argument. */
  lemma {:induction false} ArgLoopCons(ts: Stream, st: PState, args: seq<real>, es: seq<Ast>)
    requires es != [] && WF(ts, st) && Spells(ts, st, CommaArgs(es))
    requires var k := Follower(ts, st, |CommaArgs(es)|); k != TokComma && !IsAddOp(k) && !IsMulOp(k)
    decreases |es|, 0
    ensures var r := ArgLoop(ts, st, args);
      if Values(es).Ok? then r == Ok(Args(args + Values(es).value, Skip(st, |CommaArgs(es)|)))
      else r == Err(Values(es).error)
  {
    var rs := Render(es[0]);
    var rest := CommaArgs(es[1..]);
    assert CommaArgs(es) == [Piece(TokComma, ",")] + rs + rest;
    if rest != [] {
      assert rest[0] == Piece(TokComma, ",");
    }
    SpellsLead(ts, st, Piece(TokComma, ","), rs, rest);
    var st1 := Skip(st, 1);
    ExprRender(ts, st1, es[0]);
    if Value(es[0]).Ok? {
      ArgLoopRender(ts, Skip(st1, |rs|), args + [Value(es[0]).value], es[1..]);
    }
    ValuesCons(es);
    ArgLoopNext(ts, st, args, Value(es[0]), |rs|, |rest|, Values(es[1..]), |CommaArgs(es)|, Values(es));
  }

  /**
   * One more argument of `n` tokens with value `v`, then further arguments
   * of `m` tokens whose values are `vs`: `k` tokens in all, whose values
   * are `w`.
   */
  lemma ArgLoopNext(ts: Stream, st: PState, args: seq<real>, v: Result<real, EvalFault>, n: nat, m: nat, vs: Result<seq<real>, EvalFault>, k: nat, w: Result<seq<real>, EvalFault>)
    requires k == 1 + n + m && w == ConsValues(v, vs)
    requires WF(ts, st) && Tok(ts, st).kind == TokComma && st.pulled < |ts.scans|
    requires WF(ts, Skip(st, 1)) && WF(ts, Skip(Skip(st, 1), n))
    requires Gives(Expr(ts, Skip(st, 1)), v, Skip(Skip(st, 1), n))
    requires v.Ok? ==>
      ArgLoop(ts, Skip(Skip(st, 1), n), args + [v.value]) ==
        if vs.Ok? then Ok(Args(args + [v.value] + vs.value, Skip(Skip(Skip(st, 1), n), m))) else Err(vs.error)
    ensures ArgLoop(ts, st, args) == if w.Ok? then Ok(Args(args + w.value, Skip(st, k))) else Err(w.error)
  {
    ArgLoopStep(ts, st, args, v, n);
    assert Skip(Skip(Skip(st, 1), n), m) == Skip(st, 1 + n + m);
    if v.Ok? && vs.Ok? {
      assert args + [v.value] + vs.value == args + ([v.value] + vs.value);
    }
  }

  /** A piece `p` spelled out before an argument `rs` and the further arguments `rest`. */
  lemma SpellsLead(ts: Stream, st: PState, p: Piece, rs: seq<Piece>, rest: seq<Piece>)
    requires WF(ts, st) && Spells(ts, st, [p] + rs + rest)
    requires rest == [] || rest[0].kind == TokComma
    requires var k := Follower(ts, st, |[p] + rs + rest|); !IsAddOp(k) && !IsMulOp(k)
    ensures Tok(ts, st).kind == p.kind && st.pulled < |ts.scans|
    ensures WF(ts, Skip(st, 1)) && Spells(ts, Skip(st, 1), rs)
    ensures var k := Follower(ts, Skip(st, 1), |rs|); !IsAddOp(k) && !IsMulOp(k)
    ensures WF(ts, Skip(Skip(st, 1), |rs|)) && Spells(ts, Skip(Skip(st, 1), |rs|), rest)
    ensures Follower(ts, Skip(Skip(st, 1), |rs|), |rest|) == Follower(ts, st, |[p] + rs + rest|)
    ensures Skip(Skip(st, 1), |rs| + |rest|) == Skip(st, |[p] + rs + rest|)
  {
    assert [p] + rs + rest == [] + [p] + (rs + rest);
    SpellsSplit(ts, st, [], p, rs + rest);
    var st1 := Skip(st, 1);
    assert Skip(Skip(st, 0), 1) == st1;
    SpellsCat(ts, st1, rs, rest);
    SkipWF(ts, st1, rs);
  }

  /** `Values` on a non-empty list, one argument at a time. */
  lemma ValuesCons(es: seq<Ast>)
    requires es != []
    ensures Values(es) == ConsValues(Value(es[0]), Values(es[1..]))
  {
  }

  /** One round of the argument loop: `,` and an argument of `n` tokens. */
  lemma ArgLoopStep(ts: Stream, st: PState, args: seq<real>, v: Result<real, EvalFault>, n: nat)
    requires WF(ts, st) && Tok(ts, st).kind == TokComma && st.pulled < |ts.scans|
    requires WF(ts, Skip(st, 1)) && WF(ts, Skip(Skip(st, 1), n))
    requires Gives(Expr(ts, Skip(st, 1)), v, Skip(Skip(st, 1), n))
    ensures ArgLoop(ts, st, args) == if v.Ok? then ArgLoop(ts, Skip(Skip(st, 1), n), args + [v.value]) else Err(v.error)
  {
    assert Advance(ts, st) == Ok(Skip(st, 1));
  }

  /** A call from its `(`: the first argument, of `n` tokens, then the argument loop. */
  lemma CallStep(ts: Stream, st: PState, name: string, col: int, defined: bool, v: Result<real, EvalFault>, n: nat)
    requires WF(ts, st) && Tok(ts, st).kind == TokLParen && st.pulled < |ts.scans|
    requires WF(ts, Skip(st, 1)) && WF(ts, Skip(Skip(st, 1), n))
    requires Gives(Expr(ts, Skip(st, 1)), v, Skip(Skip(st, 1), n))
    ensures v.Err? ==> Call(ts, st, name, col, defined) == Err(v.error)
    ensures v.Ok? ==> var r := ArgLoop(ts, Skip(Skip(st, 1), n), [v.value]);
      Call(ts, st, name, col, defined) == if r.Ok? then CallEnd(ts, r.value, name, col, defined) else Err(r.error)
  {
    assert Advance(ts, st) == Ok(Skip(st, 1));
  }

  /**
   * A call from its `(`: the arguments are evaluated from left to right and
   * exactly their tokens consumed; what happens next depends on the token
   * after them.
   */
  lemma CallArgsRender(ts: Stream, st: PState, e0: Ast, es: seq<Ast>, name: string, col: int, defined: bool)
    requires WF(ts, st) && Spells(ts, st, CallPieces(e0, es))
    requires var k := Follower(ts, st, |CallPieces(e0, es)|); k != TokComma && !IsAddOp(k) && !IsMulOp(k)
    ensures WF(ts, Skip(st, |CallPieces(e0, es)|)) && Tok(ts, st).kind == TokLParen
    ensures var v := Values([e0] + es);
      if v.Ok? then Call(ts, st, name, col, defined) == CallEnd(ts, Args(v.value, Skip(st, |CallPieces(e0, es)|)), name, col, defined)
      else Call(ts, st, name, col, defined) == Err(v.error)
  {
    var rs := Render(e0);
    var rest := CommaArgs(es);
    if rest != [] {
      assert rest[0] == Piece(TokComma, ",");
    }
    SpellsLead(ts, st, Piece(TokLParen, "("), rs, rest);
    var st1 := Skip(st, 1);
    ExprRender(ts, st1, e0);
    CallStep(ts, st, name, col, defined, Value(e0), |rs|);
    var st2 := Skip(st1, |rs|);
    SkipWF(ts, st, CallPieces(e0, es));
    assert Skip(st2, |rest|) == Skip(st, |CallPieces(e0, es)|);
    assert ([e0] + es)[0] == e0 && ([e0] + es)[1..] == es;
    if Value(e0).Ok? {
      var v0 := Value(e0).value;
      ArgLoopRender(ts, st2, [v0], es);
      ValuesCons([e0] + es);
      if Values(es).Ok? {
        assert Values([e0] + es) == Ok([v0] + Values(es).value);
        assert ArgLoop(ts, st2, [v0]) == Ok(Args([v0] + Values(es).value, Skip(st, |CallPieces(e0, es)|)));
      } else {
        assert Values([e0] + es) == Values(es);
      }
    } else {
      assert Values([e0] + es) == Err(Value(e0).error);
    }
  }

  /** An identifier followed by a call's bracketed arguments. */
  lemma NamedCall(ts: Stream, st: PState, e0: Ast, es: seq<Ast>)
    requires WF(ts, st) && Tok(ts, st).kind == TokIdent && st.pulled < |ts.scans|
    requires Spells(ts, Skip(st, 1), CallPieces(e0, es))
    requires var k := Follower(ts, Skip(st, 1), |CallPieces(e0, es)|); k != TokComma && !IsAddOp(k) && !IsMulOp(k)
    ensures WF(ts, Skip(st, 1 + |CallPieces(e0, es)|))
    ensures var v := Values([e0] + es);
      var t := Tok(ts, st);
      UnaryExpr(ts, st) ==
        if v.Ok? then CallEnd(ts, Args(v.value, Skip(st, 1 + |CallPieces(e0, es)|)), t.lexeme, t.col, t.lexeme in st.tab)
        else Err(v.error)
  {
    var t := Tok(ts, st);
    var st1 := Skip(st, 1);
    assert Advance(ts, st) == Ok(st1);
    CallArgsRender(ts, st1, e0, es, t.lexeme, t.col, t.lexeme in st.tab);
    assert Skip(st1, |CallPieces(e0, es)|) == Skip(st, 1 + |CallPieces(e0, es)|);
    assert UnaryExpr(ts, st) == PrimaryExpr(ts, st) == Named(ts, st1, t.lexeme, t.col, t.lexeme in st.tab);
  }

  /** A call's `)` spelled out after the pieces `ps` that follow the identifier at `st`. */
  lemma SpellsClose(ts: Stream, st: PState, ps: seq<Piece>)
    requires WF(ts, st) && Spells(ts, Skip(st, 1), ps + [Piece(TokRParen, ")")])
    ensures Spells(ts, Skip(st, 1), ps) && Follower(ts, Skip(st, 1), |ps|) == TokRParen
    ensures WF(ts, Skip(st, 1 + |ps|)) && Tok(ts, Skip(st, 1 + |ps|)).kind == TokRParen
    ensures Skip(st, 1 + |ps|).pulled < |ts.scans|
    ensures WF(ts, Skip(st, |ps| + 2)) && Tok(ts, Skip(st, |ps| + 2)).kind == Follower(ts, Skip(st, 1), |ps| + 1)
    ensures Skip(Skip(st, 1 + |ps|), 1) == Skip(st, |ps| + 2)
  {
    var rp := Piece(TokRParen, ")");
    SpellsCat(ts, Skip(st, 1), ps, [rp]);
    var sta := Skip(st, 1 + |ps|);
    assert Skip(Skip(st, 1), |ps|) == sta;
    SpellsFirst(ts, sta, [rp]);
    SkipWF(ts, sta, [rp]);
  }

  /**
   * A call of a bound function: an identifier bound to `Fn(f)`, then `(`,
   * the tokens of the arguments `e0`, `es`, separated by `,`, and `)`,
   * followed by a token that is not a binary operator. `_Expr` applies `f`
   * to the arguments' values in order and consumes exactly those tokens,
   * the `)` included; table and log are untouched. An argument's fault is
   * raised instead.
   */
  lemma CallApplies(ts: Stream, st: PState, e0: Ast, es: seq<Ast>, f: seq<real> -> real)
    requires WF(ts, st) && Tok(ts, st).kind == TokIdent && st.pulled < |ts.scans|
    requires Tok(ts, st).lexeme in st.tab && st.tab[Tok(ts, st).lexeme] == Fn(f)
    requires Spells(ts, Skip(st, 1), CallPieces(e0, es) + [Piece(TokRParen, ")")])
    requires var k := Follower(ts, Skip(st, 1), |CallPieces(e0, es)| + 1); !IsAddOp(k) && !IsMulOp(k)
    ensures Gives(Expr(ts, st), Applied(f, Values([e0] + es)), Skip(st, |CallPieces(e0, es)| + 2))
  {
    SpellsClose(ts, st, CallPieces(e0, es));
    NamedCall(ts, st, e0, es);
    AppliesEnd(ts, st, |CallPieces(e0, es)|, Values([e0] + es), f);
  }

  /** `CallApplies` once the arguments have been evaluated to `vs`, with `n` tokens up to the `)`. */
  lemma AppliesEnd(ts: Stream, st: PState, n: nat, vs: Result<seq<real>, EvalFault>, f: seq<real> -> real)
    requires WF(ts, st) && Tok(ts, st).kind == TokIdent
    requires Tok(ts, st).lexeme in st.tab && st.tab[Tok(ts, st).lexeme] == Fn(f)
    requires WF(ts, Skip(st, 1 + n)) && Tok(ts, Skip(st, 1 + n)).kind == TokRParen && Skip(st, 1 + n).pulled < |ts.scans|
    requires WF(ts, Skip(st, n + 2)) && !IsAddOp(Tok(ts, Skip(st, n + 2)).kind) && !IsMulOp(Tok(ts, Skip(st, n + 2)).kind)
    requires Skip(Skip(st, 1 + n), 1) == Skip(st, n + 2)
    requires var t := Tok(ts, st);
      UnaryExpr(ts, st) == if vs.Ok? then CallEnd(ts, Args(vs.value, Skip(st, 1 + n)), t.lexeme, t.col, true) else Err(vs.error)
    ensures Gives(Expr(ts, st), Applied(f, vs), Skip(st, n + 2))
  {
    var t := Tok(ts, st);
    if vs.Ok? {
      CallEndApplies(ts, Args(vs.value, Skip(st, 1 + n)), t.lexeme, t.col, f);
    }
    AppliedGives(UnaryExpr(ts, st), f, vs, Skip(st, n + 2));
    ExprFromUnary(ts, st, Applied(f, vs), Skip(st, n + 2));
  }

  /** `Gives` for a call's value, case by case on its arguments' values. */
  lemma AppliedGives(r: Result<Eval, EvalFault>, f: seq<real> -> real, vs: Result<seq<real>, EvalFault>, st: PState)
    requires vs.Ok? ==> r == Ok(Eval(f(vs.value), st))
    requires vs.Err? ==> r == Err(vs.error)
    ensures Gives(r, Applied(f, vs), st)
  {
  }

  /** `Gives` for an outcome that follows the evaluation of a call's arguments. */
  lemma AfterGives(r: Result<Eval, EvalFault>, vs: Result<seq<real>, EvalFault>, x: Result<real, EvalFault>, st: PState)
    requires vs.Ok? ==> Gives(r, x, st)
    requires vs.Err? ==> r == Err(vs.error)
    ensures Gives(r, After(vs, x), st)
  {
  }

  /**
   * A call of an unbound name, laid out as in `CallApplies`: the arguments
   * are still evaluated, the call gives 0, the undefined-function error is
   * logged at the identifier's 1-based column, and the `)` is consumed.
   */
  lemma CallUndefined(ts: Stream, st: PState, e0: Ast, es: seq<Ast>)
    requires WF(ts, st) && Tok(ts, st).kind == TokIdent && st.pulled < |ts.scans|
    requires Tok(ts, st).lexeme !in st.tab
    requires Spells(ts, Skip(st, 1), CallPieces(e0, es) + [Piece(TokRParen, ")")])
    requires var k := Follower(ts, Skip(st, 1), |CallPieces(e0, es)| + 1); !IsAddOp(k) && !IsMulOp(k)
    ensures Gives(Expr(ts, st), After(Values([e0] + es), Ok(0.0)),
      Log(Skip(st, |CallPieces(e0, es)| + 2), Tok(ts, st).col, UndefinedFunction))
  {
    SpellsClose(ts, st, CallPieces(e0, es));
    NamedCall(ts, st, e0, es);
    UndefinedEnd(ts, st, |CallPieces(e0, es)|, Values([e0] + es));
  }

  /** `CallUndefined` once the arguments have been evaluated to `vs`, with `n` tokens up to the `)`. */
  lemma UndefinedEnd(ts: Stream, st: PState, n: nat, vs: Result<seq<real>, EvalFault>)
    requires WF(ts, st) && Tok(ts, st).kind == TokIdent && Tok(ts, st).lexeme !in st.tab
    requires WF(ts, Skip(st, 1 + n)) && Tok(ts, Skip(st, 1 + n)).kind == TokRParen && Skip(st, 1 + n).pulled < |ts.scans|
    requires WF(ts, Skip(st, n + 2)) && !IsAddOp(Tok(ts, Skip(st, n + 2)).kind) && !IsMulOp(Tok(ts, Skip(st, n + 2)).kind)
    requires Skip(Skip(st, 1 + n), 1) == Skip(st, n + 2)
    requires var t := Tok(ts, st);
      UnaryExpr(ts, st) == if vs.Ok? then CallEnd(ts, Args(vs.value, Skip(st, 1 + n)), t.lexeme, t.col, false) else Err(vs.error)
    ensures Gives(Expr(ts, st), After(vs, Ok(0.0)), Log(Skip(st, n + 2), Tok(ts, st).col, UndefinedFunction))
  {
    var t := Tok(ts, st);
    var stb := Log(Skip(st, n + 2), t.col, UndefinedFunction);
    LogWF(ts, Skip(st, n + 2), t.col, UndefinedFunction);
    if vs.Ok? {
      CallEndUndefined(ts, Args(vs.value, Skip(st, 1 + n)), t.lexeme, t.col);
    }
    AfterGives(UnaryExpr(ts, st), vs, Ok(0.0), stb);
    ExprFromUnary(ts, st, After(vs, Ok(0.0)), stb);
  }

  /**
   * A call whose `)` is missing: an identifier, `(`, the tokens of the
   * arguments, then a token that is neither `)`, `,` nor a binary operator.
   * The arguments are evaluated, the missing `)` is logged at that token's
   * 1-based column without consuming it, and the identifier is then read as
   * a variable: 0 with the undefined-variable error logged after it when
   * the name is unbound, its number when it is bound to one, and a failure
   * when it is bound to a function.
   */
  lemma CallUnclosed(ts: Stream, st: PState, e0: Ast, es: seq<Ast>)
    requires WF(ts, st) && Tok(ts, st).kind == TokIdent && st.pulled < |ts.scans|
    requires Spells(ts, Skip(st, 1), CallPieces(e0, es))
    requires var k := Follower(ts, Skip(st, 1), |CallPieces(e0, es)|);
      k != TokRParen && k != TokComma && !IsAddOp(k) && !IsMulOp(k)
    ensures var t := Tok(ts, st);
      var stc := Skip(st, 1 + |CallPieces(e0, es)|);
      var sta := Log(stc, Tok(ts, stc).col, RParenExpected);
      var v := Values([e0] + es);
      (t.lexeme !in st.tab ==> Gives(Expr(ts, st), After(v, Ok(0.0)), Log(sta, t.col, UndefinedVariable))) &&
      (t.lexeme in st.tab && st.tab[t.lexeme].Num? ==> Gives(Expr(ts, st), After(v, Ok(st.tab[t.lexeme].value)), sta)) &&
      (t.lexeme in st.tab && st.tab[t.lexeme].Fn? ==> Gives(Expr(ts, st), After(v, Err(NotANumber(t.lexeme))), sta))
  {
    var ps := CallPieces(e0, es);
    NamedCall(ts, st, e0, es);
    assert Tok(ts, Skip(st, 1 + |ps|)).kind == Follower(ts, Skip(st, 1), |ps|);
    UnclosedEnd(ts, st, |ps|, Values([e0] + es));
  }

  /** `CallUnclosed` once the arguments have been evaluated to `vs`, with `n` tokens after the identifier. */
  lemma UnclosedEnd(ts: Stream, st: PState, n: nat, vs: Result<seq<real>, EvalFault>)
    requires WF(ts, st) && Tok(ts, st).kind == TokIdent
    requires var stc := Skip(st, 1 + n);
      WF(ts, stc) && Tok(ts, stc).kind != TokRParen && !IsAddOp(Tok(ts, stc).kind) && !IsMulOp(Tok(ts, stc).kind)
    requires var t := Tok(ts, st);
      UnaryExpr(ts, st) == if vs.Ok? then CallEnd(ts, Args(vs.value, Skip(st, 1 + n)), t.lexeme, t.col, t.lexeme in st.tab) else Err(vs.error)
    ensures var t := Tok(ts, st);
      var stc := Skip(st, 1 + n);
      var sta := Log(stc, Tok(ts, stc).col, RParenExpected);
      (t.lexeme !in st.tab ==> Gives(Expr(ts, st), After(vs, Ok(0.0)), Log(sta, t.col, UndefinedVariable))) &&
      (t.lexeme in st.tab && st.tab[t.lexeme].Num? ==> Gives(Expr(ts, st), After(vs, Ok(st.tab[t.lexeme].value)), sta)) &&
      (t.lexeme in st.tab && st.tab[t.lexeme].Fn? ==> Gives(Expr(ts, st), After(vs, Err(NotANumber(t.lexeme))), sta))
  {
    var t := Tok(ts, st);
    var stc := Skip(st, 1 + n);
    var sta := Log(stc, Tok(ts, stc).col, RParenExpected);
    LogWF(ts, stc, Tok(ts, stc).col, RParenExpected);
    LogWF(ts, sta, t.col, UndefinedVariable);
    if vs.Ok? {
      CallEndUnclosed(ts, Args(vs.value, stc), t.lexeme, t.col, t.lexeme in st.tab);
    }
    if t.lexeme !in st.tab {
      AfterGives(UnaryExpr(ts, st), vs, Ok(0.0), Log(sta, t.col, UndefinedVariable));
      ExprFromUnary(ts, st, After(vs, Ok(0.0)), Log(sta, t.col, UndefinedVariable));
    } else if st.tab[t.lexeme].Num? {
      AfterGives(UnaryExpr(ts, st), vs, Ok(st.tab[t.lexeme].value), sta);
      ExprFromUnary(ts, st, After(vs, Ok(st.tab[t.lexeme].value)), sta);
    } else {
      AfterGives(UnaryExpr(ts, st), vs, Err(NotANumber(t.lexeme)), sta);
      ExprFromUnary(ts, st, After(vs, Err(NotANumber(t.lexeme))), sta);
    }
  }

  /** Logging an error keeps the state one productions can run in, and its current token. */
  lemma LogWF(ts: Stream, st: PState, col: int, e: ParseError)
    requires WF(ts, st)
    ensures WF(ts, Log(st, col, e)) && Tok(ts, Log(st, col, e)) == Tok(ts, st)
  {
  }

  /** `)` after the arguments of a bound function: it is applied, and the `)` consumed. */
  lemma CallEndApplies(ts: Stream, a: Args, name: string, col: int, f: seq<real> -> real)
    requires WF(ts, a.st) && Tok(ts, a.st).kind == TokRParen && a.st.pulled < |ts.scans|
    requires name in a.st.tab && a.st.tab[name] == Fn(f)
    ensures WF(ts, Skip(a.st, 1)) && CallEnd(ts, a, name, col, true) == Ok(Eval(f(a.values), Skip(a.st, 1)))
  {
    assert Advance(ts, a.st) == Ok(Skip(a.st, 1));
  }

  /** `)` after the arguments of an unbound name: 0, the error logged, and the `)` consumed. */
  lemma CallEndUndefined(ts: Stream, a: Args, name: string, col: int)
    requires WF(ts, a.st) && Tok(ts, a.st).kind == TokRParen && a.st.pulled < |ts.scans|
    ensures CallEnd(ts, a, name, col, false) == Ok(Eval(0.0, Log(Skip(a.st, 1), col, UndefinedFunction)))
  {
    assert Advance(ts, Log(a.st, col, UndefinedFunction)) == Ok(Skip(Log(a.st, col, UndefinedFunction), 1));
    assert Skip(Log(a.st, col, UndefinedFunction), 1) == Log(Skip(a.st, 1), col, UndefinedFunction);
  }

  /** No `)` after the arguments: the error is logged and the name read as a variable. */
  lemma CallEndUnclosed(ts: Stream, a: Args, name: string, col: int, defined: bool)
    requires WF(ts, a.st) && Tok(ts, a.st).kind != TokRParen
    requires defined <==> name in a.st.tab
    ensures var sta := Log(a.st, Tok(ts, a.st).col, RParenExpected);
      var r := CallEnd(ts, a, name, col, defined);
      if !defined then r == Ok(Eval(0.0, Log(sta, col, UndefinedVariable)))
      else if a.st.tab[name].Num? then r == Ok(Eval(a.st.tab[name].value, sta))
      else r == Err(NotANumber(name))
  {
  }
}
