/** The statement mode of the v2 scanner (parser/lex.go): the same layout rules over a
    different state, a count of dedents still owed in place of a queue and two flags for the
    end of the input. */
module StmtScanner {
  import opened Tokens
  import opened Layout

  /** The kind of the last token handed out, as far as the scanner looks at it. */
  datatype Last = Nothing | NewlineKind | OtherKind

  datatype Step = Emit(tok: Tok) | AtEof | Fail

  class Scanner {
    var rest: Toks
    var indentStack: seq<nat>
    var pendingDedents: nat
    var bracketDepth: nat
    var atLineStart: bool
    var last: Last
    var eofNewlineDone: bool
    var eofDedentsDone: bool

    /** What holds apart from `last`. */
    ghost predicate Core()
      reads this
    {
      && IsStack(indentStack)
      && Physical(rest)
      && pendingDedents < |indentStack|
      && (atLineStart && !eofNewlineDone ==> bracketDepth == 0 && pendingDedents == 0)
      && (eofNewlineDone ==> rest == End)
      && (eofDedentsDone ==> eofNewlineDone && pendingDedents == |indentStack| - 1)
      && (eofNewlineDone && !eofDedentsDone ==> pendingDedents == 0)
    }

    /** Until the end of the input, the last token was a NEWLINE, or there was none, exactly at
        the start of a line. */
    ghost predicate LastFits(l: Last)
      reads this
    {
      !eofNewlineDone ==> (atLineStart <==> l != OtherKind)
    }

    ghost predicate Valid()
      reads this
    {
      Core() && LastFits(last)
    }

    /** The stack once the owed dedents are paid. */
    ghost function Settled(): Stack
      requires Core()
      reads this
    {
      indentStack[..|indentStack| - pendingDedents]
    }

    /** The tokens still to come. */
    ghost function Out(): Toks
      requires Core()
      reads this
    {
      Dedents(pendingDedents, Unowed())
    }

    ghost function Unowed(): Toks
      requires Core()
      reads this
    {
      if eofDedentsDone then End
      else if eofNewlineDone then Close(Settled())
      else if atLineStart then Start(false, rest, 0, Settled())
      else Mid(false, rest, bracketDepth, Settled())
    }

    constructor (src: Toks)
      requires Physical(src)
      ensures Valid() && Out() == Logical(src)
    {
      rest := src;
      indentStack, atLineStart, last := [0], true, Nothing;
      pendingDedents, bracketDepth, eofNewlineDone, eofDedentsDone := 0, 0, false, false;
      new;
      assert Settled() == [0];
    }

    method Next() returns (r: Step)
      requires Valid()
      modifies this
      ensures !r.Fail? ==> Valid()
      ensures r.Emit? ==> old(Out()) == Cons(r.tok, Out()) && r.tok != Bad
      ensures r.AtEof? ==> old(Out()) == End && Out() == End
      ensures r.Fail? ==> old(Out()) == REJECT
    {
      r := NextInternal();
      if r.Emit? {
        last := LastOf(r.tok);
      }
    }

    method NextInternal() returns (r: Step)
      requires Valid()
      modifies this
      ensures last == old(last)
      ensures !r.Fail? ==> Core()
      ensures r.AtEof? ==> LastFits(last) && old(Out()) == End && Out() == End
      ensures r.Emit? ==> LastFits(LastOf(r.tok)) && old(Out()) == Cons(r.tok, Out()) && r.tok != Bad
      ensures r.Fail? ==> old(Out()) == REJECT
    {
      hide Start, Mid;
      if pendingDedents > 0 {
        ghost var s0 := Settled();
        pendingDedents := pendingDedents - 1;
        indentStack := indentStack[..|indentStack| - 1];
        assert Settled() == s0;
        return Emit(Dedent);
      }
      assert Settled() == indentStack;
      if atLineStart && bracketDepth == 0 {
        var indent := LineStart();
        StartEnd(indentStack);
        if rest.Cons? {
          var first := BeginLine(indent);
          if first.Some? {
            return first.value;
          }
        }
      }
      r := Within();
    }

    /** Skips blank lines, comment lines and the indentation of the next line. */
    method LineStart() returns (indent: nat)
      requires Core() && atLineStart
      modifies this`rest
      ensures Core()
      ensures rest.End? || Content(rest.hd)
      ensures forall s: Stack :: Start(false, old(rest), 0, s) == Start(false, rest, indent, s)
    {
      indent := 0;
      while rest.Cons? && !Content(rest.hd)
        invariant Physical(rest) && (eofNewlineDone ==> rest == End)
        invariant forall s: Stack :: Start(false, old(rest), 0, s) == Start(false, rest, indent, s)
        decreases rest
      {
        if rest.hd.Comment? {
          CommentEnds(rest, indent);
        }
        indent := if rest.hd.Space? then indent + 1 else 0;
        rest := rest.tl;
      }
    }

    /** Compares the indentation of a line with the stack: an INDENT, the first of the DEDENTs
        it calls for, an error, or nothing. */
    method BeginLine(indent: nat) returns (r: Option<Step>)
      requires Core() && atLineStart && !eofNewlineDone && rest.Cons? && Content(rest.hd)
      modifies this`atLineStart, this`indentStack, this`pendingDedents
      ensures r.Some? ==> r.value.Emit? || r.value.Fail?
      ensures r != Some(Fail) ==> Core() && !atLineStart
      ensures var t := Start(false, rest, indent, old(Settled()));
        match r
        case None => pendingDedents == 0 && t == Out()
        case Some(Emit(x)) => t == Cons(x, Out()) && (x == Indent || x == Dedent)
        case Some(_) => t == REJECT
    {
      hide Start, Mid, Pop, Dedents, Increasing;
      ghost var s0: Stack := indentStack;
      assert Settled() == s0;
      StartAt(rest, indent, s0);
      DedentsFew(Mid(false, rest, 0, s0));
      atLineStart := false;
      var top := indentStack[|indentStack| - 1];
      if indent > top {
        PushIsStack(s0, indent);
        indentStack := indentStack + [indent];
        assert Settled() == s0 + [indent];
        DedentsFew(Mid(false, rest, 0, s0 + [indent]));
        return Some(Emit(Indent));
      }
      PopSame(s0, indent);
      if indent < top {
        var count := 0;
        var i := |indentStack| - 1;
        while i > 0 && indentStack[i] > indent
          invariant 0 <= i < |indentStack| && count == |indentStack| - 1 - i
          invariant forall j :: i < j < |indentStack| ==> indentStack[j] > indent
        {
          count := count + 1;
          i := i - 1;
        }
        PopIs(s0, indent, i);
        PopIsStack(s0);
        if indentStack[i] != indent {
          return Some(Fail);
        }
        indentStack := indentStack[..|indentStack| - 1];
        pendingDedents := count - 1;
        assert Settled() == s0[..i + 1];
        DedentsMore(count, Mid(false, rest, 0, s0[..i + 1]));
        return Some(Emit(Dedent));
      }
      assert Settled() == s0;
      r := None;
    }

    /** From inside a line, or at the end of the input. */
    method Within() returns (r: Step)
      requires Core() && pendingDedents == 0
      requires LastFits(last) || (rest.Cons? && Content(rest.hd))
      requires atLineStart ==> rest == End
      modifies this
      ensures last == old(last)
      ensures Core() && !r.Fail?
      ensures r.AtEof? ==> LastFits(last) && old(Out()) == End && Out() == End
      ensures r.Emit? ==> LastFits(LastOf(r.tok)) && old(Out()) == Cons(r.tok, Out()) && r.tok != Bad
    {
      hide Start;
      assert Settled() == indentStack;
      StartEnd(indentStack);
      SkipSpace();
      if bracketDepth == 0 && rest.Cons? && rest.hd.Newline? {
        rest := rest.tl;
        atLineStart := true;
        if last != OtherKind {
          // A second NEWLINE would be suppressed here; the state never asks for one.
          assert false;
        }
        return Emit(Newline);
      }
      if rest.End? {
        r := EndOfInput();
        return;
      }
      var x := rest.hd;
      rest := rest.tl;
      if Opens(x) {
        bracketDepth := bracketDepth + 1;
      } else if Closes(x) && bracketDepth > 0 {
        bracketDepth := bracketDepth - 1;
      }
      r := Emit(x);
    }

    /** At the end of the input: a NEWLINE if the line is open, the dedents, then the end. */
    method EndOfInput() returns (r: Step)
      requires Core() && pendingDedents == 0 && rest == End && LastFits(last)
      modifies this
      ensures last == old(last)
      ensures Core() && !r.Fail?
      ensures r.AtEof? ==> LastFits(last) && old(Out()) == End && Out() == End
      ensures r.Emit? ==> LastFits(LastOf(r.tok)) && old(Out()) == Cons(r.tok, Out()) && r.tok != Bad
    {
      hide Start;
      assert Settled() == indentStack;
      StartEnd(indentStack);
      if !eofNewlineDone {
        eofNewlineDone := true;
        if last == OtherKind {
          return Emit(Newline);
        }
      }
      if !eofDedentsDone {
        eofDedentsDone := true;
        if |indentStack| > 1 {
          pendingDedents := |indentStack| - 2;
          indentStack := indentStack[..|indentStack| - 1];
          return Emit(Dedent);
        }
      }
      r := AtEof;
    }

    /** Skips blanks, comments and continuations, and line ends inside brackets. */
    method SkipSpace()
      requires Core() && (atLineStart ==> rest == End)
      modifies this`rest
      ensures Core() && Out() == old(Out())
      ensures rest.Cons? ==> Content(rest.hd) || (rest.hd.Newline? && bracketDepth == 0)
      ensures old(rest).End? || Content(old(rest).hd) ==> rest == old(rest)
    {
      hide Start;
      while rest.Cons? && !Content(rest.hd) && !(rest.hd.Newline? && bracketDepth == 0)
        invariant Core() && Out() == old(Out())
        invariant atLineStart ==> rest == End
        invariant old(rest).End? || Content(old(rest).hd) ==> rest == old(rest)
        decreases rest
      {
        rest := rest.tl;
      }
    }
  }

  function LastOf(t: Tok): Last {
    if t.Newline? then NewlineKind else OtherKind
  }

  /** A comment line ends the measurement of its indentation. */
  lemma CommentEnds(t: Toks, col: nat)
    requires Physical(t) && t.Cons? && t.hd.Comment?
    ensures forall s: Stack :: Start(false, t, col, s) == Start(false, Rest(t), 0, s)
  {
  }

  lemma StartEnd(s: Stack)
    ensures forall col :: Start(false, End, col, s) == Close(s)
  {
  }

  lemma StartAt(t: Toks, col: nat, s: Stack)
    requires t.Cons? && Content(t.hd)
    ensures Start(false, t, col, s) ==
      if col > Top(s) then Cons(Indent, Mid(false, t, 0, s + [col]))
      else if Top(Pop(s, col)) != col then REJECT
      else Dedents(|s| - |Pop(s, col)|, Mid(false, t, 0, Pop(s, col)))
  {
    hide Mid;
  }

  lemma DedentsFew(k: Toks)
    ensures Dedents(0, k) == k
  {
  }

  lemma DedentsMore(n: nat, k: Toks)
    requires n > 0
    ensures Dedents(n, k) == Cons(Dedent, Dedents(n - 1, k))
  {
  }

  lemma PopSame(s: Stack, col: nat)
    ensures col == Top(s) ==> Pop(s, col) == s
  {
  }

  lemma PopIs(s: Stack, col: nat, i: nat)
    requires i < |s| && s[i] <= col
    requires forall j :: i < j < |s| ==> s[j] > col
    ensures Pop(s, col) == s[..i + 1]
    decreases |s|
  {
    if i == |s| - 1 {
      assert s[..i + 1] == s;
    } else {
      var s' := s[..|s| - 1];
      PopIs(s', col, i);
      assert s'[..i + 1] == s[..i + 1];
    }
  }

  lemma {:induction false} StreamNoBad(out: seq<Tok>, k: Toks)
    requires Bad !in out
    ensures Count(Stream(out, k), Bad) == Count(k, Bad)
    decreases out
  {
    if out != [] {
      StreamNoBad(out[1..], k);
    }
  }

  /** Reads a whole text: its logical tokens, or nothing when it is rejected.  The loop runs at
      most twice the length of the text and two times. */
  method Run(src: Toks) returns (r: Option<seq<Tok>>, calls: nat)
    requires Physical(src)
    ensures r.Some? <==> Accepted(Logical(src))
    ensures r.Some? ==> Stream(r.value, End) == Logical(src)
    ensures calls <= 2 * Len(src) + 2
  {
    hide Logical, Stream, Count;
    var sc := new Scanner(src);
    var out: seq<Tok> := [];
    calls := 0;
    LogicalLaws(src);
    StreamNil(Logical(src));
    while true
      invariant fresh(sc) && sc.Valid() && Bad !in out
      invariant Stream(out, sc.Out()) == Logical(src)
      invariant calls + Len(sc.Out()) <= 2 * Len(src) + 1
      decreases Len(sc.Out())
    {
      ghost var before := sc.Out();
      var s := sc.Next();
      calls := calls + 1;
      if s.Fail? {
        StreamNoBad(out, REJECT);
        RejectCounts();
        return None, calls;
      }
      if s.AtEof? {
        StreamNoBad(out, End);
        RejectCounts();
        return Some(out), calls;
      }
      StreamSnoc(out, s.tok, sc.Out());
      assert Len(before) == 1 + Len(sc.Out());
      out := out + [s.tok];
    }
  }
}
