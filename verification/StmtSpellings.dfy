/** Statements as people write them and the printer does not: several on one line, a suite on the line of
    its header, values that end with a comma, exceptions listed without parentheses, imported names in
    parentheses.  The statement parser (parser/stmt.go) reads each as the statements it stands for
    (sections 7 and 8 of the Python Language Reference). */
module StmtSpellings {
  import opened Tokens
  import opened Ast
  import opened Unparse
  import opened Grammar
  import opened Reading
  import opened Descent
  import opened RoundTrip
  import opened ExprSpellings
  import opened LedRoundTrip
  import opened StmtGrammar
  import opened UnparseStmt
  import opened StmtReading
  import opened StmtRoundTrip
  import Consumption
  import Layout
  import OneLine

  // ----- several statements on one line -----

  /** Statements with semicolons between them, and after the last if `semi`. */
  function LineText(ss: seq<Stmt>, semi: bool, k: Toks): Toks {
    if ss == [] then k
    else PrintSimple(ss[0],
           if |ss| == 1 then (if semi then Cons(Semi, k) else k) else Cons(Semi, LineText(ss[1..], semi, k)))
  }

  predicate AllSimple(ss: seq<Stmt>) {
    ss == [] || (Simple(ss[0]) && WfStmt(ss[0]) && AllSimple(ss[1..]))
  }

  /** What comes back of the statements of a line: each as it does alone; after its beginning a line is not
      taken for a match statement. */
  function ReLine(ss: seq<Stmt>): Option<seq<Stmt>> {
    if ss == [] then Some([])
    else if TypeLine(ss[0]) then None
    else var s :- ReSimple(ss[0]); var r :- ReLine(ss[1..]); Some([s] + r)
  }

  lemma ReLineCons(ss: seq<Stmt>)
    requires ss != []
    ensures ReLine(ss) ==
      if TypeLine(ss[0]) then None
      else match Both(ReSimple(ss[0]), ReLine(ss[1..])) case None => None case Some(x) => Some([x.0] + x.1)
  {
    hide ReSimple, TypeLine;
  }

  lemma LineParts(ss: seq<Stmt>)
    requires AllSimple(ss) && ss != []
    ensures Simple(ss[0]) && WfStmt(ss[0]) && AllSimple(ss[1..])
  {
    hide WfStmt;
  }

  /** One statement of a line, before a semicolon and another. */
  lemma StatementMore(t: Toks, s: Option<Stmt>, u: Toks, more: Option<seq<Stmt>>, k: Toks)
    requires !TypeStart(t) && ParseSimple(t) == Of(s, Cons(Semi, u)) && u.Cons? && !At0(u, Newline)
    requires ParseSimpleList(u) == Of(more, k)
    ensures ParseSimpleList(t) == match Both(s, more) case None => Err case Some(x) => Ok([x.0] + x.1, k)
  {
    hide ParseSimple, TypeStart;
  }

  /** A line ends with a line end, or, after a semicolon, with the text. */
  predicate LineStop(semi: bool, end: Toks, k: Toks) {
    end == Cons(Newline, k) || (semi && end == End && k == End)
  }

  /** The last statement of a line. */
  lemma StatementLast(t: Toks, s: Option<Stmt>, semi: bool, end: Toks, k: Toks)
    requires !TypeStart(t) && LineStop(semi, end, k) && ParseSimple(t) == Of(s, if semi then Cons(Semi, end) else end)
    ensures ParseSimpleList(t) == One(s, k)
  {
    hide ParseSimple, TypeStart;
  }

  lemma TypeFirst(t: Toks)
    ensures TypeStart(t) ==> ParseSimpleList(t).Err?
  {
    hide ParseSimple, TypeStart;
  }

  lemma LineTextOf(ss: seq<Stmt>, semi: bool, k: Toks)
    requires ss != []
    ensures LineText(ss, semi, k) ==
      PrintSimple(ss[0],
        if ss[1..] == [] then (if semi then Cons(Semi, k) else k) else Cons(Semi, LineText(ss[1..], semi, k)))
  {
    hide PrintSimple;
  }

  /** Simple statements on one line are read one after the other, each as it is read alone, whether or not
      a semicolon ends the line. */
  lemma {:induction false} ReadLine(ss: seq<Stmt>, semi: bool, end: Toks, k: Toks)
    requires ss != [] && AllSimple(ss) && LineStop(semi, end, k)
    ensures ParseSimpleList(LineText(ss, semi, end)) == Of(ReLine(ss), k)
    ensures SimpleHead(LineText(ss, semi, end))
    decreases ss
  {
    hide PrintSimple, ReSimple, ParseSimple, ParseSimpleList, TypeStart, MatchStart, TypeLine, SoftStart, ReLine,
      LineText, SimpleHead, WfStmt, AllSimple;
    LineParts(ss);
    LineTextOf(ss, semi, end);
    ReLineCons(ss);
    if ss[1..] == [] {
      var u := if semi then Cons(Semi, end) else end;
      ReLineNone();
      ReadSimple(ss[0], u);
      SoftLine(ss[0], u);
      TypeFirst(PrintSimple(ss[0], u));
      if !TypeLine(ss[0]) {
        StatementLast(PrintSimple(ss[0], u), ReSimple(ss[0]), semi, end, k);
        NothingAfter(ReSimple(ss[0]));
      }
    } else {
      var rest := LineText(ss[1..], semi, end);
      ReadLine(ss[1..], semi, end, k);
      HeadOnLine(rest);
      ReadSimple(ss[0], Cons(Semi, rest));
      SoftLine(ss[0], Cons(Semi, rest));
      TypeFirst(PrintSimple(ss[0], Cons(Semi, rest)));
      if !TypeLine(ss[0]) {
        StatementMore(PrintSimple(ss[0], Cons(Semi, rest)), ReSimple(ss[0]), rest, ReLine(ss[1..]), k);
      }
    }
  }

  lemma ReLineNone()
    ensures ReLine([]) == Some([])
  {
  }

  lemma NothingAfter(s: Option<Stmt>)
    ensures s.Some? ==> [s.value] + [] == [s.value]
  {
  }

  lemma HeadOnLine(t: Toks)
    requires SimpleHead(t)
    ensures t.Cons? && !At0(t, Newline)
  {
  }

  // ----- suites on the line of their header -----

  lemma InlineGlue(t: Toks)
    requires !At0(t, Newline)
    ensures ParseBlock(Cons(Colon, t)) == ParseSimpleList(t)
  {
    hide ParseSimpleList, BlockTail;
  }

  /** A suite on the line of its header holds the statements of the line, in their order. */
  lemma ReadInline(ss: seq<Stmt>, semi: bool, end: Toks, k: Toks)
    requires ss != [] && AllSimple(ss) && LineStop(semi, end, k)
    ensures ParseBlock(Cons(Colon, LineText(ss, semi, end))) == Of(ReLine(ss), k)
  {
    hide ParseBlock, ParseSimpleList, LineText, ReLine, SimpleHead;
    ReadLine(ss, semi, end, k);
    HeadOnLine(LineText(ss, semi, end));
    InlineGlue(LineText(ss, semi, end));
  }

  /** No statement of the line would be taken for another at the beginning of a line. */
  predicate NoneSoft(ss: seq<Stmt>) {
    ss == [] || (!SoftStart(ss[0]) && NoneSoft(ss[1..]))
  }

  lemma {:induction false} LineIsBody(ss: seq<Stmt>)
    requires AllSimple(ss) && NoneSoft(ss)
    ensures ReLine(ss) == ReBody(ss) && WfBody(ss)
    decreases ss
  {
    hide ReSimple, ReLine, ReBody, WfStmt, SoftStart, TypeLine, PrintSimple, MatchStart, TypeStart;
    ReBodyCons(ss);
    if ss == [] {
      ReLineNone();
    } else {
      LineIsBody(ss[1..]);
      ReLineCons(ss);
      ReSimpleStmt(ss[0]);
      SoftLine(ss[0], Cons(Newline, End));
    }
  }

  /** `if c: a; b` is `if c:` with a and b on lines of their own. */
  lemma InlineIsBlock(ss: seq<Stmt>, semi: bool, ind: nat, k: Toks)
    requires ss != [] && AllSimple(ss) && NoneSoft(ss)
    ensures ParseBlock(Cons(Colon, LineText(ss, semi, Cons(Newline, k)))) == ParseBlock(PrintSuite(false, ss, ind, k))
  {
    hide ParseBlock, LineText, PrintSuite, ReLine, ReBody, ReSuite;
    ReadInline(ss, semi, Cons(Newline, k), k);
    LineIsBody(ss);
    ReadSuite(ss, ind, k);
    SuiteBody(ss);
  }

  lemma SuiteBody(ss: seq<Stmt>)
    requires ss != []
    ensures ReSuite(ss) == ReBody(ss)
  {
    hide ReBody;
  }

  predicate SoftLead(ss: seq<Stmt>) {
    ss != [] && SoftStart(ss[0])
  }

  /** A line of a module or of a block: its statements, if the first does not begin another statement. */
  lemma StatementLine(ss: seq<Stmt>, semi: bool, k: Toks)
    requires ss != [] && AllSimple(ss)
    ensures ParseLine(LineText(ss, semi, Cons(Newline, k))) == if SoftLead(ss) then Err else Of(ReLine(ss), k)
  {
    hide ParseLine, ParseSimpleList, LineText, ReLine, SimpleHead, PrintSimple, SoftStart, MatchStart, TypeStart,
      AllSimple;
    var end := Cons(Newline, k);
    var u := if ss[1..] != [] then Cons(Semi, LineText(ss[1..], semi, end)) else if semi then Cons(Semi, end) else end;
    LineParts(ss);
    LineTextOf(ss, semi, end);
    ReadLine(ss, semi, end, k);
    SoftLine(ss[0], u);
    LineStart(LineText(ss, semi, end));
  }

  lemma LineStart(t: Toks)
    requires SimpleHead(t)
    ensures ParseLine(t) == if MatchStart(t) || TypeStart(t) then Err else ParseSimpleList(t)
  {
    hide ParseSimpleList, MatchStart, TypeStart, CompoundStart, StmtHead;
  }

  /** A last line may do without its line end, and so may a line before the end of its block. */
  lemma WithoutLineEnd(k: Toks)
    requires k.End? || At0(k, Dedent)
    ensures ParseSimpleList(Cons(Nm(KwPass), k)) == Ok([Pass], k)
    ensures ParseSimple(Cons(Nm(KwReturn), k)) == Ok(Return(None), k)
  {
    hide ParseLed, ParseExprStmt, ParseTestlist;
    var t := Cons(Nm(KwReturn), k);
    assert ParseSimple(t) == ParseReturn(t);
    PassAtEnd(k);
  }

  lemma PassAtEnd(k: Toks)
    requires k.End? || At0(k, Dedent)
    ensures ParseSimpleList(Cons(Nm(KwPass), k)) == Ok([Pass], k)
  {
    hide ParseLed, ParseExprStmt, ParseReturn;
    assert ParseSimple(Cons(Nm(KwPass), k)) == Ok(Pass, k);
    hide ParseSimple;
  }

  function Newlines(n: nat, k: Toks): Toks {
    if n == 0 then k else Cons(Newline, Newlines(n - 1, k))
  }

  /** Line ends without a statement are passed over. */
  lemma {:induction false} BlankLines(n: nat, t: Toks)
    ensures ModuleTail(Newlines(n, t)) == ModuleTail(t) && BlockTail(Newlines(n, t)) == BlockTail(t)
    decreases n
  {
    hide ModuleTail, BlockTail;
    if n > 0 {
      BlankLines(n - 1, t);
      OneBlank(Newlines(n - 1, t));
    }
  }

  lemma OneBlank(t: Toks)
    ensures ModuleTail(Cons(Newline, t)) == ModuleTail(t) && BlockTail(Cons(Newline, t)) == BlockTail(t)
  {
    hide ParseLine;
  }

  // ----- values -----

  /** An assignment whose value is written v and read as e. */
  lemma {:induction false} AssignTailOf(ts: seq<Expr>, v: Toks, e: Option<Expr>, k: Toks)
    requires WfElts(ts) && SimpleEnd(k) && ParseTestlist(v) == Of(e, k)
    ensures AssignTail(Cons(Assign, PrintTargets(ts, v))) ==
            match Both(ReAll(ts), e) case None => Err case Some(x) => Ok(x.0 + [x.1], k)
    decreases ts
  {
    hide Print, Reparse, ReAll, ParseTestlist, Fits, WfElt, TargetStart, AssignTail;
    if ts == [] {
      ReAllEmpty();
      AssignMore(v, e, k);
      AssignEnd(k);
      if e.Some? {
        assert [e.value] + [] == [] + [e.value];
      }
    } else {
      var rest := Cons(Assign, PrintTargets(ts[1..], v));
      NewlineFits(rest.tl);
      ReadTestlist(ts[0], rest);
      AssignTailOf(ts[1..], v, e, k);
      AssignMore(Print(ts[0], 0, rest), Reparse(ts[0]), rest);
      ReAllCons(ts);
      if ReAll(ts).Some? && e.Some? {
        assert ReAll(ts).value + [e.value] == [Reparse(ts[0]).value] + (ReAll(ts[1..]).value + [e.value]);
      }
    }
  }

  lemma AssignOfText(ts: seq<Expr>, v: Toks, x: Expr, k: Toks)
    requires ts != [] && WfElts(ts) && SimpleEnd(k) && ParseTestlist(v) == Of(Reparse(x), k)
    ensures ParseExprStmt(PrintTargets(ts, v)) == Of(ReSimple(AssignStmt(ts, x)), k)
  {
    hide Print, PrintTargets, Reparse, ReAll, ReSimple, ParseTestlist, AssignTail, ParseExprStmt, ValidTargets, Starter,
      Fits, AssignOf, WfElt, TargetStart;
    var rest := Cons(Assign, PrintTargets(ts[1..], v));
    NewlineFits(rest.tl);
    TargetsText(ts, v);
    ReadTestlist(ts[0], rest);
    AssignTailOf(ts[1..], v, Reparse(x), k);
    ReAllCons(ts);
    AssignText(Print(ts[0], 0, rest), Reparse(ts[0]), rest, ReAll(ts[1..]), Reparse(x), k);
    ReAssign(ts, x);
  }

  lemma TargetsText(ts: seq<Expr>, v: Toks)
    requires ts != []
    ensures PrintTargets(ts, v) == Print(ts[0], 0, Cons(Assign, PrintTargets(ts[1..], v)))
  {
    hide Print;
  }

  lemma ReAssign(ts: seq<Expr>, x: Expr)
    ensures ReSimple(AssignStmt(ts, x)) ==
      match Both(ReAll(ts), Reparse(x))
      case None => None
      case Some(p) => if ValidTargets(p.0) then Some(AssignStmt(p.0, p.1)) else None
  {
    hide ReAll, Reparse, ValidTargets;
  }

  lemma AssignText(t: Toks, lhs: Option<Expr>, u: Toks, ts: Option<seq<Expr>>, v: Option<Expr>, k: Toks)
    requires ParseTestlist(t) == Of(lhs, u) && At0(u, Assign)
    requires AssignTail(u) == match Both(ts, v) case None => Err case Some(x) => Ok(x.0 + [x.1], k)
    ensures ParseExprStmt(t) ==
      match Three(lhs, ts, v)
      case None => Err
      case Some(x) => if ValidTargets([x.0] + x.1) then Ok(AssignStmt([x.0] + x.1, x.2), k) else Err
  {
    hide ParseTestlist, AssignTail, ParseExprStmt, ValidTargets, AssignOf;
    var vs := if ts.None? || v.None? then None else Some(ts.value + [v.value]);
    AssignGlue(t, lhs, u, vs, k);
    if lhs.Some? && vs.Some? {
      SplitLast([lhs.value] + vs.value, [lhs.value] + ts.value, v.value, k);
    }
  }

  lemma EndStops(k: Toks)
    requires SimpleEnd(k)
    ensures ExprSpellings.ListStop(k) && StmtEnd(k)
  {
  }

  /** `x = y = 1,`: the comma makes a tuple of the value, of a single one too. */
  lemma AssignComma(ts: seq<Expr>, es: seq<Expr>, k: Toks)
    requires ts != [] && WfElts(ts) && es != [] && WfElts(es) && SimpleEnd(k)
    ensures ParseExprStmt(PrintTargets(ts, PrintJoin(Comma, es, 1, Cons(Comma, k)))) ==
            Of(ReSimple(AssignStmt(ts, Tuple(es))), k)
  {
    hide PrintJoin, PrintTargets, ParseExprStmt, ParseTestlist, Reparse, ReSimple, SimpleEnd;
    EndStops(k);
    TestlistComma(es, k);
    AssignOfText(ts, PrintJoin(Comma, es, 1, Cons(Comma, k)), Tuple(es), k);
  }

  /** `x = yield y, z`: a yield needs no parentheses as a value. */
  lemma AssignYield(ts: seq<Expr>, e: Expr, k: Toks)
    requires ts != [] && WfElts(ts) && WfElt(e) && SimpleEnd(k)
    ensures ParseExprStmt(PrintTargets(ts, PrintTop(e, k))) == Of(ReSimple(AssignStmt(ts, e)), k)
  {
    hide PrintTop, PrintTargets, ParseExprStmt, ParseTestlist, Reparse, ReSimple, TopHead, WfElt;
    ReadTop(e, k);
    AssignOfText(ts, PrintTop(e, k), e, k);
  }

  /** `f(),`, `return 1,` and `x: int = 1,`. */
  lemma CommaValue(es: seq<Expr>, k: Toks)
    requires es != [] && WfElts(es) && SimpleEnd(k)
    ensures var v := PrintJoin(Comma, es, 1, Cons(Comma, k));
            && ParseSimple(Cons(Nm(KwReturn), v)) == Of(ReSimple(Return(Some(Tuple(es)))), k)
            && ParseInit(Cons(Assign, v)) == Of(ReOpt(Some(Tuple(es))), k)
            && ParseExprStmt(v) == Of(ReSimple(ExprStmt(Tuple(es))), k)
  {
    hide Print, PrintJoin, ParseTestlist, ParseExprStmt, Reparse, ParseSimple, SimpleEnd, StmtEnd, ListTerminator,
      EltHead, Fits;
    var v := PrintJoin(Comma, es, 1, Cons(Comma, k));
    EndStops(k);
    TestlistComma(es, k);
    ReOptSome(Tuple(es));
    ListStarts(es, Cons(Comma, k));
    ReturnGlue(v, Reparse(Tuple(es)), k);
    ReadExprStmt(v, Reparse(Tuple(es)), k);
  }

  lemma ListStarts(es: seq<Expr>, k: Toks)
    requires es != [] && WfElts(es) && At0(k, Comma)
    ensures !StmtEnd(PrintJoin(Comma, es, 1, k))
  {
    hide Print, EltHead, Fits, ParseStarOrExpr;
    TailJoin(Comma, es, 1, k);
    AfterElement(es[1..], k);
    ReadElt(es[0], PrintTail(Comma, es[1..], 1, k));
    HeadNoEnd(es[0], Print(es[0], 1, PrintTail(Comma, es[1..], 1, k)));
  }

  lemma HeadNoEnd(e: Expr, t: Toks)
    requires EltHead(e, t)
    ensures !StmtEnd(t)
  {
  }

  /** `x: tuple = 1, 2`: a list without parentheses as the first value of an annotated name. */
  lemma ListValue(e: Expr, k: Toks)
    requires WfElt(e) && SimpleEnd(k)
    ensures ParseInit(Cons(Assign, Print(e, 0, k))) == Of(ReOpt(Some(e)), k)
  {
    hide Print, Reparse, ParseTestlist, Fits, TargetStart;
    EndFits(k);
    ReadTestlist(e, k);
    ReOptSome(e);
  }

  // ----- del, imports, exceptions -----

  lemma DelEnd(t: Toks, x: Option<Expr>, k: Toks)
    requires ParseExpr(t) == Of(x, Cons(Comma, k)) && StmtEnd(k)
    ensures DelList(t) == match x case None => Err case Some(e) => Ok([e], k)
  {
    hide ParseExpr, StmtEnd;
  }

  lemma {:induction false} DelTail(es: seq<Expr>, k: Toks)
    requires es != [] && WfAll(es) && SimpleEnd(k)
    ensures DelList(PrintJoin(Comma, es, 1, Cons(Comma, k))) == Of(ReAll(es), k)
    ensures !StmtEnd(PrintJoin(Comma, es, 1, Cons(Comma, k)))
    decreases es
  {
    hide Print, Reparse, ReAll, ParseExpr, DelList, Fits, HeadOk, StmtEnd, Wf, SimpleEnd;
    EndStops(k);
    TailJoin(Comma, es, 1, Cons(Comma, k));
    SepFits(k);
    ReAllCons(es);
    if es[1..] == [] {
      PrintNone(Cons(Comma, k));
      ReAllOne(es);
      ReadExpr(es[0], 1, Cons(Comma, k));
      Begun(Print(es[0], 1, Cons(Comma, k)));
      DelEnd(Print(es[0], 1, Cons(Comma, k)), Reparse(es[0]), k);
    } else {
      var rest := PrintJoin(Comma, es[1..], 1, Cons(Comma, k));
      TailOf(es[1..], Cons(Comma, k));
      SepFits(rest);
      DelTail(es[1..], k);
      ReadExpr(es[0], 1, Cons(Comma, rest));
      Begun(Print(es[0], 1, Cons(Comma, rest)));
      DelMore(Print(es[0], 1, Cons(Comma, rest)), Reparse(es[0]), rest, ReAll(es[1..]), k);
    }
  }

  /** `del a, b,`. */
  lemma DelComma(es: seq<Expr>, k: Toks)
    requires es != [] && WfAll(es) && SimpleEnd(k)
    ensures ParseSimple(Cons(Nm(Reserved("del")), PrintJoin(Comma, es, 1, Cons(Comma, k)))) ==
            Of(ReSimple(Del(es)), k)
  {
    hide PrintJoin, Reparse, ReAll, DelList, ValidTargets, ParseSimple, StmtEnd;
    DelTail(es, k);
    DelGlue(PrintJoin(Comma, es, 1, Cons(Comma, k)), ReAll(es), k);
  }

  /** The end of names in parentheses. */
  function ParenEnding(comma: bool, k: Toks): Toks {
    if comma then Cons(Comma, Cons(RPar, k)) else Cons(RPar, k)
  }

  lemma LastName(a: Alias, comma: bool, k: Toks)
    requires |a.path| == 1
    ensures FromList(true, Cons(Nm(Ident(a.path[0])), Named(a.asname, ParenEnding(comma, k)))) == Ok([a], Cons(RPar, k))
  {
    assert ParseAsName(Named(a.asname, ParenEnding(comma, k))) == Ok(a.asname, ParenEnding(comma, k));
    assert a == Alias([a.path[0]], a.asname);
  }

  lemma NameBefore(a: Alias, t: Toks)
    requires |a.path| == 1 && !At0(t, RPar)
    ensures FromList(true, Cons(Nm(Ident(a.path[0])), Named(a.asname, Cons(Comma, t)))) ==
            match FromList(true, t) case Err => Err case Ok(more, r) => Ok([a] + more, r)
  {
    assert ParseAsName(Named(a.asname, Cons(Comma, t))) == Ok(a.asname, Cons(Comma, t));
    assert a == Alias([a.path[0]], a.asname);
  }

  lemma {:induction false} NamesInParens(names: seq<Alias>, comma: bool, k: Toks)
    requires names != [] && forall a | a in names :: |a.path| == 1
    ensures var t := PrintAliases(names, ParenEnding(comma, k));
            FromList(true, t) == Ok(names, Cons(RPar, k)) && !At0(t, RPar)
    decreases names
  {
    hide FromList, PrintAliases, ParenEnding;
    var a := names[0];
    assert a in names && a.path == [a.path[0]];
    AliasesText(names, ParenEnding(comma, k));
    if |names| == 1 {
      assert [a] == names;
      LastName(a, comma, k);
    } else {
      assert forall b | b in names[1..] :: b in names;
      NamesInParens(names[1..], comma, k);
      assert [a] + names[1..] == names;
      NameBefore(a, PrintAliases(names[1..], ParenEnding(comma, k)));
    }
  }

  /** Dots one by one, or three as one token where `dots` says so. */
  function DotsText(dots: seq<bool>, k: Toks): Toks {
    if dots == [] then k else Cons(if dots[0] then Dots else Dot, DotsText(dots[1..], k))
  }

  function Total(dots: seq<bool>): nat {
    if dots == [] then 0 else (if dots[0] then 3 else 1) + Total(dots[1..])
  }

  /** Dots in any mixture count as many as there are. */
  lemma {:induction false} DotsCount(dots: seq<bool>, k: Toks)
    requires !At0(k, Dot) && !At0(k, Dots)
    ensures DotLevel(DotsText(dots, k)) == (Total(dots), k)
    decreases dots
  {
    if dots != [] {
      DotsCount(dots[1..], k);
      OneMore(dots[0], DotsText(dots[1..], k));
    }
  }

  lemma OneMore(three: bool, t: Toks)
    ensures DotLevel(Cons(if three then Dots else Dot, t)) == ((if three then 3 else 1) + DotLevel(t).0, DotLevel(t).1)
  {
  }

  /** `from ... . m import (a, b as c,)`. */
  lemma FromParens(dots: seq<bool>, source: seq<string>, names: seq<Alias>, comma: bool, k: Toks)
    requires names != [] && forall a | a in names :: |a.path| == 1
    ensures ParseFrom(DotsText(dots, PrintPath(source,
              Cons(Nm(Reserved("import")), Cons(LPar, PrintAliases(names, ParenEnding(comma, k))))))) ==
            Ok(ImportFrom(Total(dots), source, names), k)
  {
    hide PrintPath, PrintAliases, DotsText, ParsePath, FromList, DotLevel, ParseFrom, ParenEnding;
    var t := PrintAliases(names, ParenEnding(comma, k));
    var u := Cons(Nm(Reserved("import")), Cons(LPar, t));
    var v := PrintPath(source, u);
    if source == [] {
      NoPath(u);
    } else {
      ReadPath(source, u);
    }
    DotsCount(dots, v);
    NamesInParens(names, comma, k);
    ParensGlue(DotsText(dots, v), Total(dots), v, source, t, names, k);
  }

  lemma ParensGlue(d: Toks, level: nat, v: Toks, source: seq<string>, t: Toks, names: seq<Alias>, k: Toks)
    requires DotLevel(d) == (level, v)
    requires var u := Cons(Nm(Reserved("import")), Cons(LPar, t));
             if source == [] then v == u else AtPlainName(v) && ParsePath(v) == Ok(source, u)
    requires FromList(true, t) == Ok(names, Cons(RPar, k))
    ensures ParseFrom(d) == Ok(ImportFrom(level, source, names), k)
  {
    hide DotLevel, ParsePath, FromList;
  }

  /** What follows the types of a handler. */
  predicate TypesEnd(k: Toks) {
    At0(k, Colon) || IsKw(k, KwAs)
  }

  lemma TypesStop(comma: bool, k: Toks)
    requires TypesEnd(k)
    ensures HandlerTypeTail(if comma then Cons(Comma, k) else k) == Ok([], k)
  {
  }

  lemma TypesMore(t: Toks, x: Option<Expr>, u: Toks)
    requires !TypesEnd(t) && ParseExpr(t) == Of(x, u)
    ensures HandlerTypeTail(Cons(Comma, t)) ==
      match x
      case None => Err
      case Some(v) => match HandlerTypeTail(u) case Err => Err case Ok(es, r) => Ok([v] + es, r)
  {
    hide ParseExpr;
  }

  lemma TypesFit(es: seq<Expr>, comma: bool, k: Toks)
    requires TypesEnd(k)
    ensures Fits(1, PrintTail(Comma, es, 1, if comma then Cons(Comma, k) else k))
    ensures es != [] || comma ==> At0(PrintTail(Comma, es, 1, if comma then Cons(Comma, k) else k), Comma)
  {
    hide Print;
    NewlineFits(k.tl);
    CommaFits(PrintTail(Comma, es, 1, if comma then Cons(Comma, k) else k).tl);
  }

  lemma NoType(t: Toks)
    requires HeadOk(1, t)
    ensures !TypesEnd(t)
  {
  }

  lemma {:induction false} TypesTail(es: seq<Expr>, comma: bool, k: Toks)
    requires WfAll(es) && TypesEnd(k)
    ensures HandlerTypeTail(PrintTail(Comma, es, 1, if comma then Cons(Comma, k) else k)) == Of(ReAll(es), k)
    decreases es
  {
    hide Print, Reparse, ReAll, ParseExpr, ParseStarOrExpr, HandlerTypeTail, Fits, HeadOk, Wf, TypesEnd;
    var end := if comma then Cons(Comma, k) else k;
    if es == [] {
      ReAllEmpty();
      TypesStop(comma, k);
    } else {
      var rest := PrintTail(Comma, es[1..], 1, end);
      TypesFit(es[1..], comma, k);
      ReadExpr(es[0], 1, rest);
      NoType(Print(es[0], 1, rest));
      TypesTail(es[1..], comma, k);
      ReAllCons(es);
      TypesMore(Print(es[0], 1, rest), Reparse(es[0]), rest);
    }
  }

  /** `except A, B as e:`: types without parentheses are a tuple, and one with a comma after it is too. */
  lemma HandlerTypes(es: seq<Expr>, comma: bool, k: Toks)
    requires WfAll(es) && TypesEnd(k) && (|es| >= 2 || (|es| == 1 && comma))
    ensures ParseHandlerType(PrintJoin(Comma, es, 1, if comma then Cons(Comma, k) else k)) == Of(Reparse(Tuple(es)), k)
  {
    hide Print, Reparse, ReAll, ParseExpr, ParseStarOrExpr, ParseHandlerType, HandlerTypeTail, Fits, HeadOk, Wf,
      TypesEnd;
    var end := if comma then Cons(Comma, k) else k;
    var rest := PrintTail(Comma, es[1..], 1, end);
    TailJoin(Comma, es, 1, end);
    TypesFit(es[1..], comma, k);
    ReadExpr(es[0], 1, rest);
    TypesTail(es[1..], comma, k);
    ReTuple(es);
    ReAllCons(es);
    TypesGlue(Print(es[0], 1, rest), Reparse(es[0]), rest, ReAll(es[1..]), k);
  }

  lemma TypesGlue(t: Toks, x: Option<Expr>, u: Toks, es: Option<seq<Expr>>, k: Toks)
    requires ParseExpr(t) == Of(x, u) && At0(u, Comma) && HandlerTypeTail(u) == Of(es, k)
    ensures ParseHandlerType(t) == match Both(x, es) case None => Err case Some(p) => Ok(Tuple([p.0] + p.1), k)
  {
    hide ParseExpr, HandlerTypeTail;
  }

  /** Handlers, each with a star or without. */
  datatype Clause = Clause(star: bool, handler: Handler)

  function ClausesText(cs: seq<Clause>, ind: nat, k: Toks): Toks {
    if cs == [] then k
    else
      var t := HandlerText(cs[0].handler, ind, ClausesText(cs[1..], ind, k));
      Cons(Nm(KwExcept), if cs[0].star then Cons(Star, t) else t)
  }

  function HandlersOf(cs: seq<Clause>): seq<Handler> {
    if cs == [] then [] else [cs[0].handler] + HandlersOf(cs[1..])
  }

  predicate SomeStar(cs: seq<Clause>) {
    exists c :: c in cs && c.star
  }

  lemma ClauseFirst(cs: seq<Clause>)
    requires cs != []
    ensures HandlersOf(cs) == [cs[0].handler] + HandlersOf(cs[1..])
    ensures SomeStar(cs) <==> cs[0].star || SomeStar(cs[1..])
  {
    assert cs == [cs[0]] + cs[1..];
  }

  /** One star among the handlers of a `try` makes it one with `except*`, wherever it stands. */
  lemma {:induction false} MixedHandlers(cs: seq<Clause>, ind: nat, k: Toks)
    requires WfHandlers(HandlersOf(cs)) && !IsKw(k, KwExcept)
    ensures HandlerTail(ClausesText(cs, ind, k)) == OfHandlers(SomeStar(cs), ReHandlers(HandlersOf(cs)), k)
    decreases cs
  {
    hide HandlerText, ReHandler, ParseHandler, HandlerTail, ReHandlers, WfHandler, HandlersOf, SomeStar;
    if cs == [] {
      NoClauses();
      HandlersEnd(k);
    } else {
      var rest := ClausesText(cs[1..], ind, k);
      ClauseFirst(cs);
      ReHandlersCons(HandlersOf(cs));
      assert HandlersOf(cs)[1..] == HandlersOf(cs[1..]);
      MixedHandlers(cs[1..], ind, k);
      ReadHandler(cs[0].handler, ind, rest);
      HandlerGlue(cs[0].star, HandlerText(cs[0].handler, ind, rest), ReHandler(cs[0].handler), rest, HandlerTail(rest));
    }
  }

  lemma NoClauses()
    ensures HandlersOf([]) == [] && !SomeStar([]) && ReHandlers([]) == Some([])
  {
  }

  // ----- targets -----

  /** What is left of a target when its lists and tuples are opened. */
  function Leaves(e: Expr): seq<Expr>
    decreases e, 1
  {
    match e
    case Tuple(es) => LeavesAll(es)
    case ListExpr(es) => LeavesAll(es)
    case _ => [e]
  }

  function LeavesAll(es: seq<Expr>): seq<Expr>
    decreases es
  {
    if es == [] then [] else Leaves(es[0]) + LeavesAll(es[1..])
  }

  /** What can be assigned to or deleted: names, attributes, subscripts and starred expressions, in lists
      and tuples of any depth; nothing else can. */
  lemma {:induction false} TargetsExactly(e: Expr)
    ensures ValidTarget(e) <==>
            forall x | x in Leaves(e) :: x.Name? || x.Attribute? || x.Subscript? || x.Starred?
    decreases e, 1
  {
    match e {
    case Tuple(es) => AllTargets(es);
    case ListExpr(es) => AllTargets(es);
    case _ => assert e in Leaves(e);
    }
  }

  lemma {:induction false} AllTargets(es: seq<Expr>)
    ensures ValidTargets(es) <==>
            forall x | x in LeavesAll(es) :: x.Name? || x.Attribute? || x.Subscript? || x.Starred?
    decreases es
  {
    hide Leaves, ValidTarget;
    if es != [] {
      TargetsExactly(es[0]);
      AllTargets(es[1..]);
      assert forall x :: x in LeavesAll(es) <==> x in Leaves(es[0]) || x in LeavesAll(es[1..]);
    }
  }

  /** The bases of a class: none in parentheses, or the arguments of a call with a comma at their end. */
  lemma BasesComma(bs: seq<Expr>, kws: seq<Keyword>, k: Toks)
    requires WfElts(bs) && WfKeywords(kws)
    ensures ParseBases(Cons(LPar, Cons(RPar, k))) == Ok(CallArgs([], []), k)
    ensures bs != [] || kws != [] ==>
      ParseBases(Cons(LPar, PrintJoin(Comma, bs, 1, PrintKeywords(kws, bs == [], Cons(Comma, Cons(RPar, k)))))) ==
      OfCall(ReAll(bs), ReKeywords(kws), k)
  {
    hide PrintJoin, PrintKeywords, ReAll, ReKeywords, CallTail, WfElts, WfKeywords;
    if bs != [] || kws != [] {
      hide ParseCallArgs;
      CallComma(bs, kws, k);
    }
  }

  // ----- the names `match` and `type` before something else -----

  /** The colon that the look-ahead wants is the one after the bracket that it is in. */
  lemma {:induction false} ColonIsExit(t: Toks, d: nat)
    requires d > 0
    ensures ColonAfter(t, d) <==> At0(OneLine.ExitTimes(d, t), Colon)
    decreases t
  {
    hide Consumption.Exit;
    if t.Cons? {
      OneLine.ExitStep(t);
      if Layout.Closes(t.hd) {
        if d > 1 {
          ColonIsExit(t.tl, d - 1);
        } else {
          assert OneLine.ExitTimes(1, t) == OneLine.ExitTimes(0, Consumption.Exit(t));
        }
      } else if Layout.Opens(t.hd) {
        ColonIsExit(t.tl, d + 1);
        ExitTwice(d, t);
      } else {
        ColonIsExit(t.tl, d);
      }
    } else {
      NoExit(d);
    }
  }

  lemma ExitTwice(d: nat, t: Toks)
    requires d > 0 && t.Cons? && Layout.Opens(t.hd)
    ensures OneLine.ExitTimes(d, t) == OneLine.ExitTimes(d + 1, t.tl)
  {
    hide Consumption.Exit;
    OneLine.ExitStep(t);
    assert OneLine.ExitTimes(d + 1, t.tl) == OneLine.ExitTimes(d, Consumption.Exit(t.tl));
  }

  lemma {:induction false} NoExit(d: nat)
    ensures OneLine.ExitTimes(d, End) == End
    decreases d
  {
    if d > 0 {
      assert Consumption.Exit(End) == End;
      NoExit(d - 1);
    }
  }

  /** `match` begins a match statement exactly before the first token of an expression, of a starred one or
      of a yield; but before a bracket only if a colon follows the one that closes it. */
  lemma MatchExactly(t: Toks)
    ensures MatchStart(Cons(Nm(Ident("match")), t)) <==>
            && (TargetStart(t) || IsKw(t, KwYield))
            && (At0(t, LPar) || At0(t, LBrk) ==> At0(Consumption.Exit(Rest(t)), Colon))
  {
    hide ColonAfter, Consumption.Exit;
    if t.Cons? {
      ColonIsExit(t.tl, 1);
      assert OneLine.ExitTimes(1, t.tl) == OneLine.ExitTimes(0, Consumption.Exit(t.tl));
    }
  }

  /** `type` begins a type alias exactly before a name that is neither a word of the language, nor `match`,
      nor `case`. */
  lemma TypeExactly(t: Toks)
    ensures TypeStart(Cons(Nm(Ident("type")), t)) <==>
            exists id :: At0(t, Nm(Ident(id))) && id != "match" && id != "case"
  {
    if TypeStart(Cons(Nm(Ident("type")), t)) {
      assert At0(t, Nm(Ident(t.hd.w.id)));
    }
  }

  /** Every subject that begins with no bracket is seen as one. */
  lemma MatchPrinted(e: Expr, k: Toks)
    requires WfElt(e)
    ensures var t := Print(e, 0, Cons(Colon, k));
            !At0(t, LPar) && !At0(t, LBrk) ==> MatchStart(Cons(Nm(Ident("match")), t))
  {
    hide Print, MatchStart, Consumption.Exit, TargetStart, Fits, ParseTestlist, Reparse, WfElt;
    NewlineFits(k);
    ReadTestlist(e, Cons(Colon, k));
    MatchExactly(Print(e, 0, Cons(Colon, k)));
  }

  /** So is every subject in parentheses, and every list. */
  lemma MatchBrackets(e: Expr, p: int, es: seq<Expr>, k: Toks)
    ensures MatchStart(Cons(Nm(Ident("match")), Cons(LPar, Print(e, p, Cons(RPar, Cons(Colon, k))))))
    ensures MatchStart(Cons(Nm(Ident("match")), Cons(LBrk, PrintJoin(Comma, es, 1, Cons(RBrk, Cons(Colon, k))))))
  {
    hide Print, PrintJoin, MatchStart, Consumption.Exit, OneLine.Seen;
    var end := Cons(Colon, k);
    var t := Print(e, p, Cons(RPar, end));
    OneLine.InPrint(e, p, Cons(RPar, end), 0, OneLine.Graft(end));
    GraftParen(end);
    OneLine.GraftM(t, end);
    OneLine.ListExit(es, end);
    BracketStarts(t);
    BracketStarts(PrintJoin(Comma, es, 1, Cons(RBrk, end)));
    MatchExactly(Cons(LPar, t));
    MatchExactly(Cons(LBrk, PrintJoin(Comma, es, 1, Cons(RBrk, end))));
  }

  lemma GraftParen(k: Toks)
    ensures OneLine.Seen(Cons(RPar, k), 0, OneLine.Graft(k)) == Cons(RPar, k)
  {
  }

  lemma BracketStarts(t: Toks)
    ensures TargetStart(Cons(LPar, t)) && TargetStart(Cons(LBrk, t))
  {
  }

  // ----- what is refused -----

  /** Two expressions side by side are not a line. */
  lemma NoTwoOnALine(x: string, y: string, k: Toks)
    requires x != "type" && !At0(k, Walrus)
    ensures ParseSimpleList(Cons(Nm(Ident(x)), Cons(Nm(Ident(y)), k))).Err?
  {
    hide Print, ParseTestlist, ParseExprStmt, ParseSimple, ParseStarOrExpr, ParseExpr, Fits, TopHead;
    var u := Cons(Nm(Ident(y)), k);
    var t := Cons(Nm(Ident(x)), u);
    NamePrinted(x, u);
    WordFits(u);
    ReadAsList(Name(x), 1, u);
    TopIsExpr(t);
    NothingElse(t, Name(x), u);
  }

  lemma NamePrinted(x: string, k: Toks)
    ensures Print(Name(x), 1, k) == Cons(Nm(Ident(x)), k) && Reparse(Name(x)) == Some(Name(x)) && Wf(Name(x))
  {
  }

  lemma WordFits(u: Toks)
    requires AtPlainName(u)
    ensures Fits(1, u) && !At0(u, Comma)
  {
  }

  lemma NothingElse(t: Toks, e: Expr, u: Toks)
    requires ParseSimple(t) == ParseExprStmt(t) && ParseTestlist(t) == Ok(e, u) && AtPlainName(u)
    ensures ParseSimpleList(t).Err?
  {
    hide ParseTestlist, ParseSimple, TypeStart;
    assert ParseExprStmt(t) == Ok(ExprStmt(e), u);
  }

  /** A colon and a line end ask for a block that is indented. */
  lemma NoIndent(k: Toks)
    requires !At0(k, Indent)
    ensures ParseBlock(Cons(Colon, Cons(Newline, k))).Err?
  {
  }

  /** A `try` with neither handlers nor `finally`, with an `else` or without. */
  lemma TryAlone(b: seq<Stmt>, o: seq<Stmt>, ind: nat, k: Toks)
    requires WfBody(b) && WfBody(o) && NoClause(k)
    ensures ParseTry(Cons(Nm(KwTry), PrintSuite(false, b, ind, PrintElse(false, o, ind, k)))).Err?
  {
    hide PrintSuite, PrintElse, ParseBlock, ParseElse, ParseTry, ParseFinally, HandlerTail, ReSuite, ReBody, NoClause,
      WfBody;
    var u := PrintElse(false, o, ind, k);
    ClauseWords(k);
    ElseHead(o, ind, k);
    ReadElse(o, ind, k);
    ReadSuite(b, ind, u);
    NoHandlers(o, ind, k);
    NoFinally(k);
    TryRefused(PrintSuite(false, b, ind, u), ReSuite(b), u, ReBody(o), k);
  }

  lemma NoHandlers(o: seq<Stmt>, ind: nat, k: Toks)
    requires !IsKw(k, KwExcept)
    ensures HandlerTail(PrintElse(false, o, ind, k)) == Ok(Handlers(false, []), PrintElse(false, o, ind, k))
  {
    hide PrintElse, HandlerTail;
    ElseHead(o, ind, k);
    HandlersEnd(PrintElse(false, o, ind, k));
  }

  lemma TryRefused(t: Toks, b: Option<seq<Stmt>>, u: Toks, o: Option<seq<Stmt>>, k: Toks)
    requires ParseBlock(t) == Of(b, u) && HandlerTail(u) == Ok(Handlers(false, []), u)
    requires ParseElse(u) == Of(o, k) && ParseFinally(k) == Ok([], k)
    ensures ParseTry(Cons(Nm(KwTry), t)).Err?
  {
    hide ParseBlock, ParseElse, ParseFinally, HandlerTail;
  }

  lemma NoFinally(k: Toks)
    requires !IsKw(k, KwFinally)
    ensures ParseFinally(k) == Ok([], k)
  {
    hide ParseBlock;
  }

  /** Decorators stand before a function or a class only. */
  lemma OnlyDefinitions(ds: seq<Expr>, t: Toks)
    ensures ParseDecorated(ds, t).Ok? ==> DefHead(t)
  {
    hide ParseFunctionDef, ParseClassDef;
  }

  /** A second star among the parameters, and a slash after the first. */
  lemma OneStar(a: Arguments, k: Toks)
    ensures ParamLoop(a, AfterStar, Cons(Star, k)).Err? && ParamLoop(a, AfterStar, Cons(Slash, k)).Err?
  {
  }

  /** A comma after the last name of a from-import, where there are no parentheses. */
  lemma BareComma(names: seq<Alias>, k: Toks)
    requires names != [] && (forall a | a in names :: |a.path| == 1) && SimpleEnd(k)
    ensures FromList(false, PrintAliases(names, Cons(Comma, k))).Err?
    decreases names
  {
    hide FromList, PrintAliases;
    var a := names[0];
    assert a in names && a.path == [a.path[0]];
    AliasesText(names, Cons(Comma, k));
    if |names| == 1 {
      NoName(k);
      MoreFrom(a, k);
    } else {
      assert forall b | b in names[1..] :: b in names;
      BareComma(names[1..], k);
      MoreFrom(a, PrintAliases(names[1..], Cons(Comma, k)));
    }
  }

  lemma NoName(k: Toks)
    requires SimpleEnd(k)
    ensures FromList(false, k).Err?
  {
  }
}
