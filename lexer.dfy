/**
 * The pull-based scanner of tokenizer.py.
 *
 * The scanner owns one mutable cursor into an immutable line. Each call of
 * `get_next_token` moves the cursor forward and returns one token; identifiers
 * and numbers are recognised by two small explicit-state machines.
 *
 * The functions of this module are the specification: `Next(s, pos)` is what
 * one call of `get_next_token` does when the cursor stands at `pos`. The class
 * `Tokenizer` is the imperative scanner itself, and each of its methods is
 * proved to do exactly what the corresponding function says.
 */
module Lexer {
  import opened Wrappers

  /** The lexical kinds of the `Token` enumeration (tokenizer.py:11-24). */
  datatype Kind =
    | TokErr | TokEoln | TokPlus | TokMinus | TokMul | TokDivide | TokMod
    | TokIdent | TokNumber | TokComma | TokLParen | TokRParen | TokEqual

  /** `TokenInfo`: a kind, the matched text and its zero-based start column. */
  datatype TokenInfo = TokenInfo(kind: Kind, lexeme: string, col: int)

  datatype LexError = UnrecognizedCharacter | DigitExpectedAfterDot

  /** A printed scanner diagnostic: its 1-based column and what went wrong. */
  datatype LexDiag = LexDiag(column: int, error: LexError)

  /** The exception the scanner can raise: it indexed the line at `index`, past its end. */
  datatype Fault = IndexError(index: int)

  // ASCII character classes standing for str.isspace, isalpha, isdigit and
  // isalnum; `CharClasses` ties them to the characters Python lists for them.

  predicate IsSpace(c: char) {
    var n := c as int;
    9 <= n <= 13 || 28 <= n <= 32
  }

  predicate IsDigit(c: char) {
    '0' <= c <= '9'
  }

  predicate IsAlpha(c: char) {
    'a' <= c <= 'z' || 'A' <= c <= 'Z'
  }

  predicate IsAlnum(c: char) {
    IsAlpha(c) || IsDigit(c)
  }

  /**
   * The classes are the ASCII characters Python lists for them: whitespace is
   * the blank, the tab, line feed, vertical tab, form feed, carriage return and
   * the four information separators; letters, digits and whitespace are
   * disjoint; and neither `_` nor `.` is alphanumeric.
   */
  lemma CharClasses(c: char)
    ensures IsSpace(c) <==> c in {' ', '\t', '\n', '\r', '\U{000B}', '\U{000C}', '\U{001C}', '\U{001D}', '\U{001E}', '\U{001F}'}
    ensures IsDigit(c) <==> c in "0123456789"
    ensures IsAlpha(c) ==> !IsDigit(c) && !IsSpace(c)
    ensures IsAlnum(c) ==> !IsSpace(c) && c != '_' && c != '.'
  {
  }

  /** A character that may continue an identifier. */
  predicate IsIdentChar(c: char) {
    IsAlnum(c) || c == '_'
  }

  /** The kind of each one-character token, for the characters that form one. */
  function SingleKind(c: char): Option<Kind> {
    match c
    case '+' => Some(TokPlus)
    case '-' => Some(TokMinus)
    case '*' => Some(TokMul)
    case '/' => Some(TokDivide)
    case '%' => Some(TokMod)
    case '(' => Some(TokLParen)
    case ')' => Some(TokRParen)
    case ',' => Some(TokComma)
    case '=' => Some(TokEqual)
    case _ => None
  }

  function Eoln(col: int): TokenInfo {
    TokenInfo(TokEoln, "\n", col)
  }

  /** `integer --> "0" - "9" {"0" - "9"}` */
  ghost predicate IsInteger(t: string) {
    |t| > 0 && forall i :: 0 <= i < |t| ==> IsDigit(t[i])
  }

  /** The index of the first '.' at or after `i` in `t`, or `|t|`. */
  function DotIndex(t: string, i: nat): (k: nat)
    requires i <= |t|
    decreases |t| - i
    ensures i <= k <= |t|
  {
    if i == |t| || t[i] == '.' then i else DotIndex(t, i + 1)
  }

  /** `number --> integer | integer "." integer` */
  ghost predicate IsNumeral(t: string) {
    IsInteger(t) ||
    var k := DotIndex(t, 0);
    0 < k < |t| && IsInteger(t[..k]) && IsInteger(t[k + 1..])
  }

  /** `DotIndex` stops at the first '.', and only there. */
  lemma {:induction false} DotIndexAt(t: string, i: nat, k: nat)
    requires i <= k < |t| && t[k] == '.'
    requires forall j :: i <= j < k ==> t[j] != '.'
    decreases k - i
    ensures DotIndex(t, i) == k
  {
    if i < k {
      DotIndexAt(t, i + 1, k);
    }
  }

  /** `Ident --> alpha {alnum | "_"}` */
  ghost predicate IsIdentifier(t: string) {
    |t| > 0 && IsAlpha(t[0]) && forall i :: 0 < i < |t| ==> IsIdentChar(t[i])
  }

  /** The first index at or after `i` that cannot continue an identifier, or `|s|`. */
  function IdentEnd(s: string, i: nat): (e: nat)
    requires i <= |s|
    decreases |s| - i
    ensures i <= e <= |s|
  {
    if i < |s| && IsIdentChar(s[i]) then IdentEnd(s, i + 1) else i
  }

  /** `IdentEnd` finds the maximal run of identifier characters starting at `i`. */
  lemma {:induction false} IdentEndSpan(s: string, i: nat)
    requires i <= |s|
    decreases |s| - i
    ensures var e := IdentEnd(s, i);
      (forall k :: i <= k < e ==> IsIdentChar(s[k])) && (e < |s| ==> !IsIdentChar(s[e]))
  {
    if i < |s| && IsIdentChar(s[i]) {
      IdentEndSpan(s, i + 1);
    }
  }

  /** The first index at or after `i` that is not a digit, or `|s|`. */
  function DigitsEnd(s: string, i: nat): (e: nat)
    requires i <= |s|
    decreases |s| - i
    ensures i <= e <= |s|
  {
    if i < |s| && IsDigit(s[i]) then DigitsEnd(s, i + 1) else i
  }

  /** `DigitsEnd` finds the maximal run of digits starting at `i`. */
  lemma {:induction false} DigitsEndSpan(s: string, i: nat)
    requires i <= |s|
    decreases |s| - i
    ensures var e := DigitsEnd(s, i);
      (forall k :: i <= k < e ==> IsDigit(s[k])) && (e < |s| ==> !IsDigit(s[e]))
  {
    if i < |s| && IsDigit(s[i]) {
      DigitsEndSpan(s, i + 1);
    }
  }

  /**
   * How `_scan_number` ends when started on a digit at `start`: it accepts with
   * the cursor on the number's last digit, it rejects a '.' not followed by a
   * digit (cursor on the offending character), or it indexes past the end of
   * the line. The last happens whenever the digits run to the end: the range
   * test is referenced but never called in the integer and fraction states, and
   * the diagnostic for a trailing '.' quotes the character past the end.
   */
  datatype NumberOutcome = Accepted(last: int) | Malformed(at: int) | OutOfRange(at: int)

  /*
   * The number machine of `_scan_number` one state at a time: how it ends once
   * it stands at `p` in the fraction (state 3), just after the '.' (state 2)
   * or in the integer part (state 1).
   */
  function FractionFrom(s: string, p: nat): (r: NumberOutcome)
    requires 1 <= p <= |s|
    decreases |s| - p
    ensures r.Accepted? ==> p - 1 <= r.last && r.last + 1 < |s|
    ensures r.OutOfRange? ==> r.at == |s|
    ensures !r.Malformed?
  {
    if p == |s| then OutOfRange(p)
    else if IsDigit(s[p]) then FractionFrom(s, p + 1)
    else Accepted(p - 1)
  }

  function AfterDotFrom(s: string, p: nat): (r: NumberOutcome)
    requires 1 <= p <= |s|
    ensures r.Accepted? ==> p <= r.last && r.last + 1 < |s|
    ensures r.Malformed? ==> r.at == p < |s| && !IsDigit(s[p])
    ensures r.OutOfRange? ==> r.at == |s|
  {
    if p == |s| then OutOfRange(p)
    else if IsDigit(s[p]) then FractionFrom(s, p + 1)
    else Malformed(p)
  }

  function IntegerFrom(s: string, p: nat): (r: NumberOutcome)
    requires 1 <= p <= |s|
    decreases |s| - p
    ensures r.Accepted? ==> p - 1 <= r.last && r.last + 1 < |s|
    ensures r.Malformed? ==> p + 1 <= r.at < |s| && s[r.at - 1] == '.' && !IsDigit(s[r.at])
    ensures r.OutOfRange? ==> r.at == |s|
  {
    if p == |s| then OutOfRange(p)
    else if IsDigit(s[p]) then IntegerFrom(s, p + 1)
    else if s[p] == '.' then AfterDotFrom(s, p + 1)
    else Accepted(p - 1)
  }

  /** How `_scan_number` ends when started on the digit at `start`. */
  function ScanNumberSpec(s: string, start: nat): (r: NumberOutcome)
    requires start < |s| && IsDigit(s[start])
    ensures r.Accepted? ==> start <= r.last && r.last + 1 < |s|
    ensures r.Malformed? ==> start + 2 <= r.at < |s|
    ensures r.OutOfRange? ==> r.at == |s|
  {
    IntegerFrom(s, start + 1)
  }

  /** The same outcome read off the maximal runs of digits around the '.'. */
  ghost function NumberRuns(s: string, start: nat): (r: NumberOutcome)
    requires start < |s|
    ensures r.Accepted? ==> start <= r.last && r.last + 1 < |s|
    ensures r.Malformed? ==> start + 2 <= r.at < |s|
    ensures r.OutOfRange? ==> r.at == |s|
  {
    var q := DigitsEnd(s, start + 1);
    if q == |s| then OutOfRange(q)
    else if s[q] != '.' then Accepted(q - 1)
    else if q + 1 == |s| then OutOfRange(q + 1)
    else if !IsDigit(s[q + 1]) then Malformed(q + 1)
    else
      var e := DigitsEnd(s, q + 2);
      if e == |s| then OutOfRange(e) else Accepted(e - 1)
  }

  lemma {:induction false} FractionFromRun(s: string, p: nat)
    requires 1 <= p <= |s|
    decreases |s| - p
    ensures var e := DigitsEnd(s, p);
      FractionFrom(s, p) == if e == |s| then OutOfRange(e) else Accepted(e - 1)
  {
    if p < |s| && IsDigit(s[p]) {
      FractionFromRun(s, p + 1);
    }
  }

  lemma {:induction false} IntegerFromRun(s: string, start: nat, p: nat)
    requires start < p <= |s|
    requires DigitsEnd(s, p) == DigitsEnd(s, start + 1)
    decreases |s| - p
    ensures IntegerFrom(s, p) == NumberRuns(s, start)
  {
    if p < |s| && IsDigit(s[p]) {
      IntegerFromRun(s, start, p + 1);
    } else if p + 1 < |s| && s[p] == '.' && IsDigit(s[p + 1]) {
      FractionFromRun(s, p + 2);
    }
  }

  /** Stepping the machine state by state ends where the digit runs say. */
  lemma ScanNumberRuns(s: string, start: nat)
    requires start < |s| && IsDigit(s[start])
    ensures ScanNumberSpec(s, start) == NumberRuns(s, start)
  {
    IntegerFromRun(s, start, start + 1);
  }

  lemma NumberRunsShape(s: string, start: nat)
    requires start < |s| && IsDigit(s[start])
    ensures var r := NumberRuns(s, start);
      (r.Accepted? ==>
        IsNumeral(s[start..r.last + 1]) && !IsDigit(s[r.last + 1]) &&
        (s[r.last + 1] == '.' ==> !IsInteger(s[start..r.last + 1]))) &&
      (r.Malformed? ==>
        s[r.at - 1] == '.' && !IsDigit(s[r.at]) && IsInteger(s[start..r.at - 1])) &&
      (r.OutOfRange? ==>
        forall k :: start <= k < |s| ==> IsDigit(s[k]) || s[k] == '.')
  {
    var q := DigitsEnd(s, start + 1);
    DigitsEndSpan(s, start + 1);
    IntegerSlice(s, start, q);
    if q < |s| && s[q] == '.' && q + 1 < |s| && IsDigit(s[q + 1]) {
      var e := DigitsEnd(s, q + 2);
      DigitsEndSpan(s, q + 2);
      if e < |s| {
        FractionNumeral(s, start, q, e);
      }
    }
  }

  /**
   * The number machine accepts exactly a maximal `integer` or
   * `integer "." integer`, rejects a '.' without a following digit, and
   * runs off the end only when nothing but digits and '.' lead up to it.
   */
  lemma ScanNumberShape(s: string, start: nat)
    requires start < |s| && IsDigit(s[start])
    ensures var r := ScanNumberSpec(s, start);
      (r.Accepted? ==>
        IsNumeral(s[start..r.last + 1]) && !IsDigit(s[r.last + 1]) &&
        (s[r.last + 1] == '.' ==> !IsInteger(s[start..r.last + 1]))) &&
      (r.Malformed? ==>
        s[r.at - 1] == '.' && !IsDigit(s[r.at]) && IsInteger(s[start..r.at - 1])) &&
      (r.OutOfRange? ==>
        forall k :: start <= k < |s| ==> IsDigit(s[k]) || s[k] == '.')
  {
    ScanNumberRuns(s, start);
    NumberRunsShape(s, start);
  }

  lemma IntegerSlice(s: string, start: nat, q: nat)
    requires start < q <= |s| && forall k :: start <= k < q ==> IsDigit(s[k])
    ensures IsInteger(s[start..q])
  {
    var w := s[start..q];
    forall i | 0 <= i < |w| ensures IsDigit(w[i]) {
      assert w[i] == s[start + i];
    }
  }

  lemma FractionNumeral(s: string, start: nat, q: nat, e: nat)
    requires start < q && q + 1 < e <= |s| && s[q] == '.'
    requires forall k :: start <= k < e && k != q ==> IsDigit(s[k])
    ensures IsNumeral(s[start..e]) && !IsInteger(s[start..e])
  {
    var t := s[start..e];
    IntegerSlice(s, start, q);
    IntegerSlice(s, q + 1, e);
    assert t[..q - start] == s[start..q];
    assert t[q - start + 1..] == s[q + 1..e];
    assert t[q - start] == '.';
    DotIndexAt(t, 0, q - start);
  }

  /** The outcome of one call of `get_next_token`: the token, the new cursor, and what it printed. */
  datatype Scan = Scan(tok: TokenInfo, pos: int, diags: seq<LexDiag>)

  /** Prefixes the diagnostics printed before a scan resumed. */
  function WithDiags(ds: seq<LexDiag>, r: Result<Scan, Fault>): Result<Scan, Fault> {
    match r
    case Ok(sc) => Ok(sc.(diags := ds + sc.diags))
    case Err(e) => Err(e)
  }

  /** What a real (non-end-of-line) token satisfies against the line it came from. */
  ghost predicate FitsLine(s: string, t: TokenInfo, cursor: int) {
    0 <= t.col < |s| - 1 && 0 < |t.lexeme| && t.col + |t.lexeme| <= |s| &&
    t.lexeme == s[t.col..t.col + |t.lexeme|] &&
    (t.kind == TokIdent ==> IdentFits(s, t, cursor)) &&
    (t.kind == TokNumber ==> IsNumeral(t.lexeme) && cursor == t.col + |t.lexeme| - 1) &&
    (t.kind != TokIdent && t.kind != TokNumber ==> SingleFits(t, cursor))
  }

  /** An identifier is maximal; the cursor stops on the character after it. */
  ghost predicate IdentFits(s: string, t: TokenInfo, cursor: int) {
    IsIdentifier(t.lexeme) && cursor == t.col + |t.lexeme| &&
    (0 <= cursor < |s| ==> !IsIdentChar(s[cursor]))
  }

  /** A one-character token; the cursor stays on it. */
  ghost predicate SingleFits(t: TokenInfo, cursor: int) {
    |t.lexeme| == 1 && SingleKind(t.lexeme[0]) == Some(t.kind) && cursor == t.col
  }

  /** What every successful call of `get_next_token` from cursor `pos` guarantees. */
  ghost predicate Sound(s: string, pos: int, sc: Scan) {
    pos < sc.tok.col <= sc.pos &&
    sc.tok.kind != TokErr &&
    (pos <= |s| ==> sc.pos <= |s| + 1) &&
    (forall d :: d in sc.diags ==> pos + 2 <= d.column <= sc.tok.col) &&
    if sc.tok.kind == TokEoln then
      sc.tok == Eoln(sc.pos) && (sc.pos >= |s| - 1 || (0 <= sc.pos && s[sc.pos] == '\n'))
    else
      FitsLine(s, sc.tok, sc.pos)
  }

  /**
   * One call of `get_next_token` with the cursor at `pos` (tokenizer.py:38-88):
   * the cursor is advanced first, then whitespace is skipped, end of line is
   * reported at or past the end or on a newline, and also on the last index
   * of the line, so that a character there never starts a token.
   */
  function Next(s: string, pos: int): (r: Result<Scan, Fault>)
    requires -1 <= pos
    decreases |s| - pos
  {
    var p := pos + 1;
    if p >= |s| || s[p] == '\n' then Ok(Scan(Eoln(p), p, []))
    else if IsSpace(s[p]) then Next(s, p)
    else if p == |s| - 1 then Ok(Scan(Eoln(p), p, []))
    else if SingleKind(s[p]).Some? then
      Ok(Scan(TokenInfo(SingleKind(s[p]).value, [s[p]], p), p, []))
    else if IsAlpha(s[p]) then
      var e := IdentEnd(s, p + 1);
      Ok(Scan(TokenInfo(TokIdent, s[p..e], p), e, []))
    else if IsDigit(s[p]) then
      match ScanNumberSpec(s, p)
      case Accepted(last) => Ok(Scan(TokenInfo(TokNumber, s[p..last + 1], p), last, []))
      case Malformed(at) => WithDiags([LexDiag(at + 1, DigitExpectedAfterDot)], Next(s, at))
      case OutOfRange(at) => Err(IndexError(at))
    else
      WithDiags([LexDiag(p + 1, UnrecognizedCharacter)], Next(s, p + 1))
  }

  /**
   * Every token `get_next_token` returns is sound: it is never `TOKERR`, it
   * starts after the old cursor, a real token is the exact text at its column
   * (and never starts on the line's last index), end of line is reported only
   * at or past the last index or on a newline, and every diagnostic printed on
   * the way lies between the old cursor and the token.
   */
  lemma {:induction false} NextSound(s: string, pos: int)
    requires -1 <= pos
    decreases |s| - pos
    ensures Next(s, pos).Ok? ==> Sound(s, pos, Next(s, pos).value)
  {
    var p := pos + 1;
    if p >= |s| || s[p] == '\n' {
    } else if IsSpace(s[p]) {
      NextSound(s, p);
    } else if p == |s| - 1 {
    } else if SingleKind(s[p]).Some? {
      SingleSound(s, pos);
    } else if IsAlpha(s[p]) {
      IdentSound(s, pos);
    } else if IsDigit(s[p]) {
      match ScanNumberSpec(s, p)
      case Accepted(last) =>
        NumberSound(s, pos, last);
      case Malformed(at) =>
        NextSound(s, at);
        ResumeSound(s, pos, at, LexDiag(at + 1, DigitExpectedAfterDot), Next(s, at));
      case OutOfRange(at) =>
    } else {
      NextSound(s, p + 1);
      ResumeSound(s, pos, p + 1, LexDiag(p + 1, UnrecognizedCharacter), Next(s, p + 1));
    }
  }

  // The four kinds of step `Next` takes, each shown sound on its own.

  lemma SingleSound(s: string, pos: int)
    requires -1 <= pos && pos + 1 < |s| - 1 && SingleKind(s[pos + 1]).Some?
    ensures var p := pos + 1;
      Sound(s, pos, Scan(TokenInfo(SingleKind(s[p]).value, [s[p]], p), p, []))
  {
    var p := pos + 1;
    assert s[p..p + 1] == [s[p]];
  }

  lemma IdentSound(s: string, pos: int)
    requires -1 <= pos && pos + 1 < |s| - 1 && IsAlpha(s[pos + 1])
    ensures var p := pos + 1; var e := IdentEnd(s, p + 1);
      Sound(s, pos, Scan(TokenInfo(TokIdent, s[p..e], p), e, []))
  {
    IdentFitsLine(s, pos + 1);
  }

  lemma IdentFitsLine(s: string, p: nat)
    requires p < |s| - 1 && IsAlpha(s[p])
    ensures var e := IdentEnd(s, p + 1); FitsLine(s, TokenInfo(TokIdent, s[p..e], p), e)
  {
    var e := IdentEnd(s, p + 1);
    var t := s[p..e];
    IdentEndSpan(s, p + 1);
    assert IsIdentifier(t) by {
      forall i | 0 < i < |t| ensures IsIdentChar(t[i]) {
        assert t[i] == s[p + i];
      }
    }
  }

  lemma NumberSound(s: string, pos: int, last: int)
    requires -1 <= pos && pos + 1 < |s| - 1 && IsDigit(s[pos + 1])
    requires ScanNumberSpec(s, pos + 1) == Accepted(last)
    ensures var p := pos + 1;
      Sound(s, pos, Scan(TokenInfo(TokNumber, s[p..last + 1], p), last, []))
  {
    ScanNumberShape(s, pos + 1);
  }

  lemma ResumeSound(s: string, pos: int, at: int, d: LexDiag, r: Result<Scan, Fault>)
    requires -1 <= pos < at < |s| && pos + 2 <= d.column <= at + 1
    requires r.Ok? ==> Sound(s, at, r.value)
    ensures WithDiags([d], r).Ok? ==> Sound(s, pos, WithDiags([d], r).value)
  {
  }

  /** A step that produced a token, after the diagnostics printed before it. */
  lemma Found(before: seq<LexDiag>, s: string, prev: int, tok: TokenInfo, pos: int)
    requires -1 <= prev && Next(s, prev) == Ok(Scan(tok, pos, []))
    ensures WithDiags(before, Next(s, prev)) == Ok(Scan(tok, pos, before))
  {
    assert before + [] == before;
  }

  lemma WithNoDiags(r: Result<Scan, Fault>)
    ensures WithDiags([], r) == r
  {
    if r.Ok? {
      assert [] + r.value.diags == r.value.diags;
    }
  }

  lemma WithDiagsConcat(a: seq<LexDiag>, b: seq<LexDiag>, r: Result<Scan, Fault>)
    ensures WithDiags(a, WithDiags(b, r)) == WithDiags(a + b, r)
  {
    if r.Ok? {
      assert a + (b + r.value.diags) == (a + b) + r.value.diags;
    }
  }

  /** How the scanner's state after `_scan_number` reflects `ScanNumberSpec`. */
  ghost predicate NumberReport(s: string, start: nat, r: Result<Option<TokenInfo>, Fault>,
                               pos: int, diags: seq<LexDiag>, before: seq<LexDiag>)
    requires start < |s| && IsDigit(s[start])
  {
    match ScanNumberSpec(s, start)
    case Accepted(last) =>
      r == Ok(Some(TokenInfo(TokNumber, s[start..last + 1], start))) &&
      pos == last && diags == before
    case Malformed(at) =>
      r == Ok(None) && pos == at && diags == before + [LexDiag(at + 1, DigitExpectedAfterDot)]
    case OutOfRange(at) => r == Err(IndexError(at))
  }

  /** The scanner of one input line. */
  class Tokenizer {
    /** `expr_str` */
    const s: string
    /** `current_pos`: the index of the last character consumed */
    var pos: int
    /** The scanner's printed diagnostics, oldest first. */
    var diags: seq<LexDiag>

    constructor (line: string)
      ensures s == line && pos == -1 && diags == []
    {
      s := line;
      pos := -1;
      diags := [];
    }

    /** `_is_index_within_range` */
    predicate IndexWithinRange()
      reads this
    {
      pos < |s|
    }

    /** `get_next_token`: proved to be one step of `Next`. */
    method NextToken() returns (r: Result<TokenInfo, Fault>)
      requires -1 <= pos
      modifies this
      ensures match Next(s, old(pos))
              case Ok(sc) => r == Ok(sc.tok) && pos == sc.pos && diags == old(diags) + sc.diags
              case Err(e) => r == Err(e)
    {
      ghost var goal := Next(s, pos);
      ghost var printed: seq<LexDiag> := [];
      var tok: Option<TokenInfo> := None;
      WithNoDiags(goal);
      while tok.None?
        invariant old(pos) <= pos
        invariant diags == old(diags) + printed
        invariant tok.None? ==> goal == WithDiags(printed, Next(s, pos))
        invariant tok.Some? ==> goal == Ok(Scan(tok.value, pos, printed))
        decreases if tok.None? then 1 else 0, |s| - pos
      {
        ghost var prev := pos;
        pos := pos + 1;
        if pos >= |s| || s[pos] == '\n' {
          tok := Some(Eoln(pos));
          Found(printed, s, prev, tok.value, pos);
        } else if IsSpace(s[pos]) {
          // whitespace produces no token
        } else if pos == |s| - 1 {
          // a non-newline-terminated line: its last character ends the line
          tok := Some(Eoln(pos));
          Found(printed, s, prev, tok.value, pos);
        } else if SingleKind(s[pos]).Some? {
          tok := Some(TokenInfo(SingleKind(s[pos]).value, [s[pos]], pos));
          Found(printed, s, prev, tok.value, pos);
        } else if IsAlpha(s[pos]) {
          var t := ScanIdentifier();
          tok := Some(t);
          Found(printed, s, prev, tok.value, pos);
        } else if IsDigit(s[pos]) {
          var t :- ScanNumber();
          tok := t;
          if t.None? {
            var d := LexDiag(pos + 1, DigitExpectedAfterDot);
            WithDiagsConcat(printed, [d], Next(s, pos));
            printed := printed + [d];
          } else {
            Found(printed, s, prev, tok.value, pos);
          }
        } else {
          var d := LexDiag(pos + 1, UnrecognizedCharacter);
          diags := diags + [d];
          WithDiagsConcat(printed, [d], Next(s, pos + 1));
          printed := printed + [d];
          pos := pos + 1;
        }
      }
      r := Ok(tok.value);
    }

    /**
     * `_scan_identifier`: a three-state machine. It stops one step past the
     * first character that cannot continue the identifier and backs up one,
     * so the cursor is left ON that character, which the next call of
     * `NextToken` then steps over.
     */
    method ScanIdentifier() returns (t: TokenInfo)
      requires 0 <= pos < |s| && IsAlpha(s[pos])
      modifies this`pos
      ensures pos == IdentEnd(s, old(pos) + 1)
      ensures t == TokenInfo(TokIdent, s[old(pos)..pos], old(pos))
    {
      var state := 0;
      var lexeme := "";
      var col := pos;
      while true
        invariant col == old(pos) && 0 <= state <= 2
        invariant state == 0 ==> pos == col && lexeme == ""
        invariant state == 1 ==>
          col < pos <= |s| && lexeme == s[col..pos] && IdentEnd(s, col + 1) == IdentEnd(s, pos)
        invariant state == 2 ==> pos == IdentEnd(s, col + 1) + 1 && lexeme == s[col..pos - 1]
        decreases |s| + 2 - pos
      {
        if state == 0 {
          if IsAlpha(s[pos]) {
            state := 1;
            lexeme := lexeme + [s[pos]];
          }
        } else if state == 1 {
          if IndexWithinRange() && IsIdentChar(s[pos]) {
            lexeme := lexeme + [s[pos]];
          } else {
            state := 2;
          }
        } else {
          // accept: back up onto the character that ended the identifier
          pos := pos - 1;
          return TokenInfo(TokIdent, lexeme, col);
        }
        pos := pos + 1;
      }
    }

    /**
     * `_scan_number`: a four-state machine (integer part, '.', fraction). On
     * acceptance the cursor is left on the last digit. In the integer and the
     * fraction states the range test is only referenced, so reading past the
     * end raises; the diagnostic for a missing fraction digit quotes the
     * offending character, so it raises too when the '.' ends the line.
     */
    method ScanNumber() returns (r: Result<Option<TokenInfo>, Fault>)
      requires 0 <= pos < |s| && IsDigit(s[pos])
      modifies this
      ensures NumberReport(s, old(pos), r, pos, diags, old(diags))
    {
      var state := 0;
      var lexeme := "";
      var col := pos;
      ghost var outcome := ScanNumberSpec(s, col);
      while true
        invariant col == old(pos) && 0 <= state <= 3 && diags == old(diags)
        invariant col <= pos <= |s| && lexeme == s[col..pos]
        invariant state == 0 <==> pos == col
        invariant state == 1 ==> outcome == IntegerFrom(s, pos)
        invariant state == 2 ==> outcome == AfterDotFrom(s, pos) && s[pos - 1] == '.'
        invariant state == 3 ==> outcome == FractionFrom(s, pos)
        decreases |s| + 1 - pos
      {
        if pos < |s| {
          assert s[col..pos + 1] == s[col..pos] + [s[pos]];
        }
        if state == 0 {
          if IsDigit(s[pos]) {
            state := 1;
            lexeme := lexeme + [s[pos]];
          }
        } else if state == 1 {
          // `self._is_index_within_range` is referenced, not called: always true
          if pos >= |s| {
            return Err(IndexError(pos));
          }
          if IsDigit(s[pos]) {
            lexeme := lexeme + [s[pos]];
          } else if s[pos] == '.' {
            state := 2;
            lexeme := lexeme + [s[pos]];
          } else {
            pos := pos - 1;
            return Ok(Some(TokenInfo(TokNumber, lexeme, col)));
          }
        } else if state == 2 {
          if IndexWithinRange() && IsDigit(s[pos]) {
            state := 3;
            lexeme := lexeme + [s[pos]];
          } else {
            // the diagnostic quotes `expr_str[current_pos]`
            if pos >= |s| {
              return Err(IndexError(pos));
            }
            diags := diags + [LexDiag(pos + 1, DigitExpectedAfterDot)];
            return Ok(None);
          }
        } else {
          // the range test is referenced, not called, here as well
          if pos >= |s| {
            return Err(IndexError(pos));
          }
          if IsDigit(s[pos]) {
            lexeme := lexeme + [s[pos]];
          } else {
            pos := pos - 1;
            return Ok(Some(TokenInfo(TokNumber, lexeme, col)));
          }
        }
        pos := pos + 1;
      }
    }
  }
}
