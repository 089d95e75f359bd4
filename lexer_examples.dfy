/** The scanner run on concrete lines, among them the demonstration line of tokenizer.py:178. */
module LexerExamples {
  import opened Wrappers
  import opened Lexer
  import opened LexerFacts

  /** The line scanned by the demonstration at tokenizer.py:178 (written in pieces, 63 characters). */
  const Demo: string :=
    (("2    + 5" + ".4 * / h") + ("ell kofi" + "_1 = 4.3")) +
    (("34334 % " + "{ } 45.h") + (" min(1, " + "4, 5) ?"))

  lemma DemoChars0()
    ensures Demo[0] == '2' && Demo[1] == ' ' && Demo[2] == ' ' && Demo[3] == ' ' &&
      Demo[4] == ' ' && Demo[5] == '+' && Demo[6] == ' ' && Demo[7] == '5' &&
      Demo[8] == '.' && Demo[9] == '4' && Demo[10] == ' ' && Demo[11] == '*' &&
      Demo[12] == ' ' && Demo[13] == '/' && Demo[14] == ' ' && Demo[15] == 'h'
  {
  }

  lemma DemoChars1()
    ensures Demo[16] == 'e' && Demo[17] == 'l' && Demo[18] == 'l' && Demo[19] == ' ' &&
      Demo[20] == 'k' && Demo[21] == 'o' && Demo[22] == 'f' && Demo[23] == 'i' &&
      Demo[24] == '_' && Demo[25] == '1' && Demo[26] == ' ' && Demo[27] == '=' &&
      Demo[28] == ' ' && Demo[29] == '4' && Demo[30] == '.' && Demo[31] == '3'
  {
  }

  lemma DemoChars2()
    ensures Demo[32] == '3' && Demo[33] == '4' && Demo[34] == '3' && Demo[35] == '3' &&
      Demo[36] == '4' && Demo[37] == ' ' && Demo[38] == '%' && Demo[39] == ' ' &&
      Demo[40] == '{' && Demo[41] == ' ' && Demo[42] == '}' && Demo[43] == ' ' &&
      Demo[44] == '4' && Demo[45] == '5' && Demo[46] == '.' && Demo[47] == 'h'
  {
  }

  lemma DemoChars3()
    ensures Demo[48] == ' ' && Demo[49] == 'm' && Demo[50] == 'i' && Demo[51] == 'n' &&
      Demo[52] == '(' && Demo[53] == '1' && Demo[54] == ',' && Demo[55] == ' ' &&
      Demo[56] == '4' && Demo[57] == ',' && Demo[58] == ' ' && Demo[59] == '5' &&
      Demo[60] == ')' && Demo[61] == ' ' && Demo[62] == '?'
  {
  }

  /**
   * The loop of the demonstration at tokenizer.py:180-184, collecting the
   * tokens instead of printing them: every token before the first end of
   * line, in order, or the fault of the call that raised.
   */
  method Tokens(line: string) returns (r: Result<seq<TokenInfo>, Fault>)
    ensures var ts := Pulls(line, -1);
      match r
      case Ok(toks) =>
        ts.fault.None? && |toks| == |ts.scans| - 1 &&
        forall i :: 0 <= i < |toks| ==> toks[i] == ts.scans[i].tok
      case Err(e) => ts.fault == Some(e)
  {
    ghost var ts := Pulls(line, -1);
    var tokenizer := new Tokenizer(line);
    var token :- Pull(tokenizer, ts, 0);
    var toks := [];
    ghost var k := 1;
    while token.kind != TokEoln
      invariant 1 <= k <= |ts.scans| && token == ts.scans[k - 1].tok
      invariant token.kind == TokEoln ==> k == |ts.scans| && ts.fault.None?
      invariant tokenizer.s == line && -1 <= tokenizer.pos == Cursor(-1, ts.scans, k)
      invariant |toks| == k - 1 && forall i :: 0 <= i < |toks| ==> toks[i] == ts.scans[i].tok
      decreases |ts.scans| - k
    {
      toks := toks + [token];
      token :- Pull(tokenizer, ts, k);
      k := k + 1;
    }
    return Ok(toks);
  }

  /** The `k`-th call of the demonstration loop: the `k`-th scan of the stream, or its fault. */
  method Pull(tokenizer: Tokenizer, ghost ts: Stream, ghost k: nat) returns (r: Result<TokenInfo, Fault>)
    requires ts == Pulls(tokenizer.s, -1)
    requires k <= |ts.scans| && -1 <= tokenizer.pos == Cursor(-1, ts.scans, k)
    requires 0 < k ==> ts.scans[k - 1].tok.kind != TokEoln
    modifies tokenizer
    ensures match r
      case Ok(t) =>
        k < |ts.scans| && t == ts.scans[k].tok &&
        old(tokenizer.pos) < tokenizer.pos == Cursor(-1, ts.scans, k + 1) &&
        (t.kind == TokEoln ==> k + 1 == |ts.scans| && ts.fault.None?)
      case Err(e) => k == |ts.scans| && ts.fault == Some(e)
  {
    PullsFits(tokenizer.s, -1);
    PullsFollow(tokenizer.s, -1);
    assert Follows(tokenizer.s, -1, ts, k);
    NextAdvances(tokenizer.s, tokenizer.pos);
    r := tokenizer.NextToken();
  }

  lemma SkipSpace(s: string, pos: int)
    requires -1 <= pos && pos + 1 < |s| && s[pos + 1] != '\n' && IsSpace(s[pos + 1])
    ensures Next(s, pos) == Next(s, pos + 1)
  {
  }

  function Tok(kind: Kind, lexeme: string, col: int): TokenInfo {
    TokenInfo(kind, lexeme, col)
  }

  const D41 := LexDiag(41, UnrecognizedCharacter)
  const D43 := LexDiag(43, UnrecognizedCharacter)
  const D48 := LexDiag(48, DigitExpectedAfterDot)

  /** What the eighteen calls of `get_next_token` on the demonstration line return. */
  const DemoScans: seq<Scan> := [
    Scan(Tok(TokNumber, "2", 0), 0, []),
    Scan(Tok(TokPlus, "+", 5), 5, []),
    Scan(Tok(TokNumber, "5.4", 7), 9, []),
    Scan(Tok(TokMul, "*", 11), 11, []),
    Scan(Tok(TokDivide, "/", 13), 13, []),
    Scan(Tok(TokIdent, "hell", 15), 19, []),
    Scan(Tok(TokIdent, "kofi_1", 20), 26, []),
    Scan(Tok(TokEqual, "=", 27), 27, []),
    Scan(Tok(TokNumber, "4.334334", 29), 36, []),
    Scan(Tok(TokMod, "%", 38), 38, []),
    Scan(Tok(TokIdent, "min", 49), 52, [D41, D43, D48]),
    Scan(Tok(TokNumber, "1", 53), 53, []),
    Scan(Tok(TokComma, ",", 54), 54, []),
    Scan(Tok(TokNumber, "4", 56), 56, []),
    Scan(Tok(TokComma, ",", 57), 57, []),
    Scan(Tok(TokNumber, "5", 59), 59, []),
    Scan(Tok(TokRParen, ")", 60), 60, []),
    Scan(Eoln(62), 62, [])
  ]

  lemma Demo1To3()
    ensures Next(Demo, -1) == Ok(DemoScans[0])
    ensures Next(Demo, 0) == Ok(DemoScans[1])
    ensures Next(Demo, 5) == Ok(DemoScans[2])
  {
    DemoChars0();
    assert Demo[0..1] == "2";
    SkipSpace(Demo, 0); SkipSpace(Demo, 1); SkipSpace(Demo, 2); SkipSpace(Demo, 3);
    SkipSpace(Demo, 5);
    assert Demo[7..10] == "5.4";
  }

  lemma Demo4To5()
    ensures Next(Demo, 9) == Ok(DemoScans[3])
    ensures Next(Demo, 11) == Ok(DemoScans[4])
  {
    DemoChars0();
    SkipSpace(Demo, 9);
    SkipSpace(Demo, 11);
  }

  lemma Demo6()
    ensures Next(Demo, 13) == Ok(DemoScans[5])
  {
    DemoChars0(); DemoChars1();
    SkipSpace(Demo, 13);
    assert IdentEnd(Demo, 19) == 19 && IdentEnd(Demo, 17) == 19;
    assert Demo[15..19] == "hell";
  }

  lemma Demo7To8()
    ensures Next(Demo, 19) == Ok(DemoScans[6])
    ensures Next(Demo, 26) == Ok(DemoScans[7])
  {
    DemoChars1();
    assert IdentEnd(Demo, 26) == 26 && IdentEnd(Demo, 24) == 26 && IdentEnd(Demo, 22) == 26;
    assert Demo[20..26] == "kofi_1";
  }

  lemma Demo9To10()
    ensures Next(Demo, 27) == Ok(DemoScans[8])
    ensures Next(Demo, 36) == Ok(DemoScans[9])
  {
    DemoChars1(); DemoChars2();
    SkipSpace(Demo, 27);
    assert FractionFrom(Demo, 37) == Accepted(36) && FractionFrom(Demo, 35) == Accepted(36);
    assert FractionFrom(Demo, 33) == Accepted(36) && FractionFrom(Demo, 32) == Accepted(36);
    assert Demo[29..37] == "4.334334";
    SkipSpace(Demo, 36);
  }

  lemma Demo11Min()
    ensures Next(Demo, 47) == Ok(Scan(Tok(TokIdent, "min", 49), 52, []))
  {
    DemoChars2(); DemoChars3();
    SkipSpace(Demo, 47);
    assert IdentEnd(Demo, 52) == 52 && IdentEnd(Demo, 50) == 52;
    assert Demo[49..52] == "min";
  }

  lemma Demo11Number()
    ensures Next(Demo, 43) == Ok(Scan(Tok(TokIdent, "min", 49), 52, [D48]))
  {
    DemoChars2();
    Demo11Min();
    assert AfterDotFrom(Demo, 47) == Malformed(47);
    assert IntegerFrom(Demo, 46) == Malformed(47);
    assert [D48] + [] == [D48];
  }

  lemma Demo11()
    ensures Next(Demo, 38) == Ok(DemoScans[10])
  {
    DemoChars2();
    Demo11Number();
    assert [D43] + [D48] == [D43, D48];
    assert [D41] + [D43, D48] == [D41, D43, D48];
    assert Next(Demo, 41) == Ok(Scan(Tok(TokIdent, "min", 49), 52, [D43, D48]));
    SkipSpace(Demo, 38);
  }

  lemma Demo12To14()
    ensures Next(Demo, 52) == Ok(DemoScans[11])
    ensures Next(Demo, 53) == Ok(DemoScans[12])
    ensures Next(Demo, 54) == Ok(DemoScans[13])
  {
    DemoChars3();
    assert Demo[53..54] == "1";
    SkipSpace(Demo, 54);
    assert Demo[56..57] == "4";
  }

  lemma Demo15To18()
    ensures Next(Demo, 56) == Ok(DemoScans[14])
    ensures Next(Demo, 57) == Ok(DemoScans[15])
    ensures Next(Demo, 59) == Ok(DemoScans[16])
    ensures Next(Demo, 60) == Ok(DemoScans[17])
  {
    DemoChars3();
    SkipSpace(Demo, 57);
    assert Demo[59..60] == "5";
    SkipSpace(Demo, 60);
  }

  /**
   * The demonstration line scans to eighteen tokens: the '(' after `min` is
   * swallowed by the identifier machine, `{` and `}` and the malformed `45.`
   * are reported and skipped (the 'h' after the '.' with them), and the
   * trailing '?' on the last index ends the line.
   */
  lemma DemoLine()
    ensures Next(Demo, -1) == Ok(DemoScans[0])
    ensures forall k :: 0 < k < |DemoScans| ==> Link(Demo, DemoScans[k - 1], DemoScans[k])
    ensures DemoScans[|DemoScans| - 1].tok.kind == TokEoln
    ensures forall k :: 0 <= k < |DemoScans| - 1 ==> DemoScans[k].tok.kind != TokEoln
  {
    Demo1To3(); Demo4To5(); Demo6(); Demo7To8(); Demo9To10(); Demo11();
    Demo12To14(); Demo15To18();
  }

  /** The stream the demonstration loop pulls from the line. */
  lemma DemoStream()
    ensures Pulls(Demo, -1) == Stream(DemoScans, None)
    ensures DemoScans[|DemoScans| - 1] == Scan(Eoln(|Demo| - 1), |Demo| - 1, [])
  {
    DemoLine();
    Chain(Demo, -1, DemoScans);
  }

  /** A newline inside a line ends it for one call only; the following call finds the `+` after it. */
  lemma NewlineInLine()
    ensures Next("\n+ ", -1) == Ok(Scan(Eoln(0), 0, []))
    ensures Next("\n+ ", 0) == Ok(Scan(Tok(TokPlus, "+", 1), 1, []))
    ensures Next("\n+ ", 1) == Ok(Scan(Eoln(3), 3, []))
  {
  }

  /** On a line not ending in a newline, a final digit is lost: `2+3` scans as `2`, `+`, end of line. */
  lemma LastDigitLost()
    ensures Pulls("2+3", -1) == Stream([Scan(Tok(TokNumber, "2", 0), 0, []), Scan(Tok(TokPlus, "+", 1), 1, []), Scan(Eoln(2), 2, [])], None)
  {
    assert "2+3"[0..1] == "2";
    assert Next("2+3", -1) == Ok(Scan(Tok(TokNumber, "2", 0), 0, []));
    assert Next("2+3", 0) == Ok(Scan(Tok(TokPlus, "+", 1), 1, []));
    assert Next("2+3", 1) == Ok(Scan(Eoln(2), 2, []));
    Chain("2+3", -1, [Scan(Tok(TokNumber, "2", 0), 0, []), Scan(Tok(TokPlus, "+", 1), 1, []), Scan(Eoln(2), 2, [])]);
  }

  /** A number running to the end of the line indexes past it: `45` raises `IndexError` at index 2. */
  lemma NumberAtEnd()
    ensures Next("45", -1) == Err(IndexError(2))
  {
  }

  /** The demonstration at tokenizer.py:178-184 lists seventeen tokens, ending with the `)` at zero-based column 60. */
  method Demonstration() returns (r: Result<seq<TokenInfo>, Fault>)
    ensures r.Ok? && |r.value| == 17
    ensures r.value[10] == Tok(TokIdent, "min", 49) && r.value[16] == Tok(TokRParen, ")", 60)
  {
    r := Tokens(Demo);
    DemoStream();
  }
}
