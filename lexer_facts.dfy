/**
 * Properties of the scanner that span several calls of `get_next_token`,
 * and the scanner run on concrete lines.
 */
module LexerFacts {
  import opened Wrappers
  import opened Lexer

  /** How far one call moves the cursor. */
  lemma NextAdvances(s: string, pos: int)
    requires -1 <= pos
    ensures Next(s, pos).Ok? ==>
      var sc := Next(s, pos).value;
      pos < sc.pos && (pos <= |s| ==> sc.pos <= |s| + 1) &&
      (sc.tok.kind != TokEoln ==> sc.pos <= |s|)
  {
    NextSound(s, pos);
  }

  /**
   * What successive calls of `get_next_token` return, as the demonstration
   * loop at tokenizer.py:180-184 pulls them: every result up to and including
   * the first end of line, or up to the call that raises.
   */
  datatype Stream = Stream(scans: seq<Scan>, fault: Option<Fault>)

  function Pulls(s: string, pos: int): (r: Stream)
    requires -1 <= pos
    decreases if pos <= |s| then |s| + 1 - pos else 0
    ensures Terminated(r)
    ensures r.fault.Some? || |r.scans| > 0
  {
    NextAdvances(s, pos);
    match Next(s, pos)
    case Err(e) => Stream([], Some(e))
    case Ok(sc) =>
      if sc.tok.kind == TokEoln then Stream([sc], None)
      else
        var rest := Pulls(s, sc.pos);
        Stream([sc] + rest.scans, rest.fault)
  }

  /** A stream ends in an end of line unless a call raised. */
  predicate Terminated(ts: Stream) {
    ts.fault.None? ==> |ts.scans| > 0 && ts.scans[|ts.scans| - 1].tok.kind == TokEoln
  }

  /** The diagnostics printed by the calls that returned `scans`, in order. */
  function Printed(scans: seq<Scan>, k: nat): seq<LexDiag>
    requires k <= |scans|
  {
    if k == 0 then [] else Printed(scans, k - 1) + scans[k - 1].diags
  }

  /** The cursor after `k` calls that started from `start`. */
  function Cursor(start: int, scans: seq<Scan>, k: nat): int
    requires k <= |scans|
  {
    if k == 0 then start else scans[k - 1].pos
  }

  /** A real token lies between the old cursor and the new one. */
  lemma TokenSpan(s: string, pos: int)
    requires -1 <= pos
    ensures Next(s, pos).Ok? ==>
      var sc := Next(s, pos).value;
      pos < sc.tok.col &&
      (sc.tok.kind != TokEoln ==> sc.tok.col + |sc.tok.lexeme| <= sc.pos + 1)
  {
    NextSound(s, pos);
  }

  /**
   * The calls yield real tokens, each the text at its column, followed by
   * exactly one end of line, or by nothing when a call raised.
   */
  lemma {:induction false} PullsFits(s: string, pos: int)
    requires -1 <= pos
    decreases if pos <= |s| then |s| + 1 - pos else 0
    ensures var ts := Pulls(s, pos);
      Terminated(ts) &&
      forall i :: 0 <= i < |ts.scans| ==>
        ts.scans[i].tok.kind != TokErr &&
        (ts.scans[i].tok.kind == TokEoln <==> i == |ts.scans| - 1 && ts.fault.None?) &&
        (ts.scans[i].tok.kind != TokEoln ==> FitsLine(s, ts.scans[i].tok, ts.scans[i].pos))
  {
    NextAdvances(s, pos);
    NextSound(s, pos);
    if Next(s, pos).Ok? {
      var sc := Next(s, pos).value;
      if sc.tok.kind != TokEoln {
        PullsFits(s, sc.pos);
        var rest := Pulls(s, sc.pos);
        var ts := Pulls(s, pos);
        assert ts.scans == [sc] + rest.scans && ts.fault == rest.fault;
        forall i | 0 < i < |ts.scans|
          ensures ts.scans[i] == rest.scans[i - 1]
        {
        }
      }
    }
  }

  /**
   * The stream lists exactly the successive calls: the `k`-th call, made
   * from the cursor the previous calls left, returns the `k`-th scan, and
   * the call after the last scan of a raising stream raises.
   */
  lemma {:induction false} PullsAt(s: string, start: int, k: nat)
    requires -1 <= start && k <= |Pulls(s, start).scans|
    decreases k
    ensures var ts := Pulls(s, start);
      start <= Cursor(start, ts.scans, k) &&
      (k < |ts.scans| ==> Next(s, Cursor(start, ts.scans, k)) == Ok(ts.scans[k])) &&
      (k == |ts.scans| && ts.fault.Some? ==> Next(s, Cursor(start, ts.scans, k)) == Err(ts.fault.value))
  {
    NextAdvances(s, start);
    if k > 0 && Next(s, start).value.tok.kind != TokEoln {
      var sc := Next(s, start).value;
      var rest := Pulls(s, sc.pos);
      var ts := Pulls(s, start);
      assert ts.scans == [sc] + rest.scans && ts.fault == rest.fault;
      PullsAt(s, sc.pos, k - 1);
      assert Cursor(start, ts.scans, k) == Cursor(sc.pos, rest.scans, k - 1);
      if k < |ts.scans| {
        assert ts.scans[k] == rest.scans[k - 1];
      }
    }
  }

  /**
   * The `k`-th call, made from the cursor the previous calls left, returns
   * the `k`-th scan of `ts`, or raises if `ts` ends there in a fault.
   */
  ghost predicate Follows(s: string, start: int, ts: Stream, k: nat) {
    k <= |ts.scans| && -1 <= Cursor(start, ts.scans, k) ==>
      (k < |ts.scans| ==> Next(s, Cursor(start, ts.scans, k)) == Ok(ts.scans[k])) &&
      (k == |ts.scans| && ts.fault.Some? ==> Next(s, Cursor(start, ts.scans, k)) == Err(ts.fault.value))
  }

  /** Every call the stream records is the one the scanner makes. */
  lemma PullsFollow(s: string, start: int)
    requires -1 <= start
    ensures forall k: nat :: Follows(s, start, Pulls(s, start), k)
  {
    forall k: nat
      ensures Follows(s, start, Pulls(s, start), k)
    {
      if k <= |Pulls(s, start).scans| {
        PullsAt(s, start, k);
      }
    }
  }

  /** One more call that yields a real token (for working out streams of concrete lines). */
  lemma PullsStep(s: string, pos: int, sc: Scan, rest: Stream)
    requires -1 <= pos < sc.pos && Next(s, pos) == Ok(sc) && sc.tok.kind != TokEoln
    requires Pulls(s, sc.pos) == rest
    ensures Pulls(s, pos) == Stream([sc] + rest.scans, rest.fault)
  {
  }

  /** Every token of `ts` starts after cursor `pos`. */
  ghost predicate AllAfter(ts: seq<Scan>, pos: int) {
    forall i :: 0 <= i < |ts| ==> pos < ts[i].tok.col
  }

  /** The tokens of `ts` come in column order, each ending before the next begins. */
  ghost predicate Disjoint(ts: seq<Scan>) {
    forall i, j :: 0 <= i < j < |ts| ==> ts[i].tok.col + |ts[i].tok.lexeme| <= ts[j].tok.col
  }

  /** The pulled tokens come in column order without overlapping, all after the starting cursor. */
  lemma {:induction false} PullsOrdered(s: string, pos: int)
    requires -1 <= pos
    decreases if pos <= |s| then |s| + 1 - pos else 0
    ensures AllAfter(Pulls(s, pos).scans, pos) && Disjoint(Pulls(s, pos).scans)
  {
    NextAdvances(s, pos);
    TokenSpan(s, pos);
    if Next(s, pos).Ok? {
      var sc := Next(s, pos).value;
      if sc.tok.kind != TokEoln {
        PullsOrdered(s, sc.pos);
        var rest := Pulls(s, sc.pos).scans;
        assert Pulls(s, pos).scans == [sc] + rest;
        Prepend(sc, rest, pos);
      }
    }
  }

  lemma Prepend(sc: Scan, rest: seq<Scan>, pos: int)
    requires pos < sc.tok.col && sc.tok.col + |sc.tok.lexeme| <= sc.pos + 1
    requires AllAfter(rest, sc.pos) && Disjoint(rest)
    ensures AllAfter([sc] + rest, pos) && Disjoint([sc] + rest)
  {
    var ts := [sc] + rest;
    forall i, j | 0 <= i < j < |ts|
      ensures ts[i].tok.col + |ts[i].tok.lexeme| <= ts[j].tok.col
    {
      assert ts[j] == rest[j - 1];
      if i > 0 {
        assert ts[i] == rest[i - 1];
      }
    }
  }

  /** The call made from the cursor that scan `a` left returns scan `b`. */
  ghost predicate Link(s: string, a: Scan, b: Scan) {
    -1 <= a.pos && Next(s, a.pos) == Ok(b)
  }

  /**
   * The calls listed in `scans`, each made from the cursor the one before
   * left, the last and only the last reporting end of line, are what the
   * scanner pulls from `pos`.
   */
  lemma {:induction false} Chain(s: string, pos: int, scans: seq<Scan>)
    requires -1 <= pos && |scans| > 0 && Next(s, pos) == Ok(scans[0])
    requires forall k :: 0 < k < |scans| ==> Link(s, scans[k - 1], scans[k])
    requires scans[|scans| - 1].tok.kind == TokEoln
    requires forall k :: 0 <= k < |scans| - 1 ==> scans[k].tok.kind != TokEoln
    decreases |scans|
    ensures Pulls(s, pos) == Stream(scans, None)
  {
    NextAdvances(s, pos);
    if |scans| > 1 {
      var rest := scans[1..];
      assert Link(s, scans[0], scans[1]);
      forall k | 0 < k < |rest|
        ensures Link(s, rest[k - 1], rest[k])
      {
        assert Link(s, scans[k], scans[k + 1]);
      }
      forall k | 0 <= k < |rest| - 1
        ensures rest[k].tok.kind != TokEoln
      {
        assert rest[k] == scans[k + 1];
      }
      Chain(s, scans[0].pos, rest);
      assert scans == [scans[0]] + rest;
    }
  }

  /** At or past the end of the line every call reports end of line, one column further on. */
  lemma EolAtEnd(s: string, pos: int)
    requires -1 <= pos && |s| <= pos + 1
    ensures Next(s, pos) == Ok(Scan(Eoln(pos + 1), pos + 1, []))
    ensures Next(s, pos + 1) == Ok(Scan(Eoln(pos + 2), pos + 2, []))
  {
  }

  /**
   * A line's last character never starts a token: the call that reaches it
   * reports end of line there, or one column on if it is whitespace.
   */
  lemma LastCharEnds(s: string, pos: int)
    requires -1 <= pos && pos + 1 == |s| - 1
    ensures var c := if s[pos + 1] != '\n' && IsSpace(s[pos + 1]) then |s| else |s| - 1;
      Next(s, pos) == Ok(Scan(Eoln(c), c, []))
  {
  }

  /**
   * An embedded newline ends the line, but only for one call: the cursor
   * stays on it and the next call scans on from the character after it.
   */
  lemma NewlineOnce(s: string, pos: int)
    requires -1 <= pos && pos + 1 < |s| && s[pos + 1] == '\n'
    ensures Next(s, pos) == Ok(Scan(Eoln(pos + 1), pos + 1, []))
    ensures Next(s, pos + 1).Ok? && Next(s, pos + 1).value.tok.kind != TokEoln ==>
      pos + 1 < Next(s, pos + 1).value.tok.col
  {
    NextSound(s, pos + 1);
  }
}
