/** Parsing the tokens of printed statements.

    Main result, ReadBody: for every body of well-formed statements, of any nesting, the
    statement parser builds ReBody(b) from its tokens and leaves what follows the body. */
module StmtRoundTrip {
  import opened Tokens
  import opened Ast
  import opened Unparse
  import opened Grammar
  import opened Reading
  import opened Descent
  import opened RoundTrip
  import opened LedRoundTrip
  import opened StmtGrammar
  import opened UnparseStmt
  import opened StmtReading
  import opened DefParams
  import OneLine
  import Layout

  /** No clause of a compound statement begins at k. */
  predicate NoClause(k: Toks) {
    !IsKw(k, KwElif) && !IsKw(k, KwElse) && !IsKw(k, KwExcept) && !IsKw(k, KwFinally)
  }

  /** The first token of a statement. */
  predicate StmtHead(t: Toks) {
    t.Cons? && !t.hd.Newline? && !t.hd.Dedent? && NoClause(t)
  }

  function One(o: Option<Stmt>, k: Toks): Res<seq<Stmt>> {
    match o case None => Err case Some(s) => Ok([s], k)
  }

  // ----- simple statements -----

  /** What an expression statement may begin with. */
  predicate TopHead(t: Toks) {
    t.Cons? && (Starter(t.hd) || t.hd == Star || t.hd == Nm(KwYield))
  }

  /** The first token of an expression statement, when it is a name, is no statement keyword. */
  lemma TopWord(t: Toks)
    requires TopHead(t)
    ensures t.hd.Nm? ==>
      var w := t.hd.w;
      w.Ident? || w.KwNot? || w.KwLambda? || w.KwAwait? || w.KwNone? || w.KwTrue? || w.KwFalse? || w.KwYield?
    ensures t.Cons? && !t.hd.Newline? && !t.hd.Dedent? && !t.hd.Semi? && t.hd != At
  {
  }

  lemma TopIsExpr(t: Toks)
    requires TopHead(t)
    ensures ParseSimple(t) == ParseExprStmt(t)
    ensures StmtHead(t) && !At0(t, At) && !CompoundStart(t) && !StmtEnd(t)
  {
    hide ParseSimple, ParseExprStmt, TopHead, Starter;
    TopWord(t);
    TopIsSimple(t);
  }

  lemma TopIsSimple(t: Toks)
    requires TopHead(t)
    ensures ParseSimple(t) == ParseExprStmt(t)
  {
    hide ParseExprStmt, ParseReturn, ParseLed, TopHead, Starter;
    TopWord(t);
  }

  lemma NewlineFits(k: Toks)
    ensures Fits(1, Cons(Newline, k)) && Fits(1, Cons(Semi, k)) && Fits(1, Cons(Assign, k))
    ensures Fits(1, Cons(Colon, k)) && Fits(1, Cons(RPar, k))
    ensures forall x :: Fits(1, Cons(AugAssign(x), k))
    ensures Fits(1, Cons(Nm(KwAs), k)) && Fits(1, Cons(Indent, k))
  {
  }

  lemma {:induction false} ReadTop(e: Expr, k: Toks)
    requires WfElt(e) && SimpleEnd(k)
    ensures ParseTestlist(PrintTop(e, k)) == Of(Reparse(e), k)
    ensures TopHead(PrintTop(e, k))
  {
    hide Print, Reparse, ParseTestlist, Wf, TopHead, Starter, Fits;
    EndFits(k);
    WfYield(e);
    if e.Yield? {
      ReadTopYield(e, k);
    } else if e.YieldFrom? {
      ReadTopYieldFrom(e.yfrom, k);
    } else {
      ReadTestlist(e, k);
      TopHeads(PrintTop(e, k));
    }
  }

  lemma {:induction false} ReadTopYield(e: Expr, k: Toks)
    requires e.Yield? && (e.yvalue.Some? ==> WfElt(e.yvalue.value)) && SimpleEnd(k)
    ensures ParseTestlist(PrintTop(e, k)) == Of(Reparse(e), k)
    ensures TopHead(PrintTop(e, k))
  {
    hide Print, PrintTop, Reparse, ParseTestlist, ParseExpr, ParseStarOrExpr, Starter, Fits, Wf, TopHead,
      YieldTerminator, ListTerminator;
    ReYield(e.yvalue);
    YieldPrinted(e.yvalue, k);
    match e.yvalue
    case None =>
      YieldAlone(k);
      YieldTop(k, Reparse(e), k);
    case Some(x) =>
      ReadTopValue(x, k);
      YieldTop(Print(x, 0, k), Reparse(e), k);
  }

  lemma {:induction false} ReadTopValue(x: Expr, k: Toks)
    requires WfElt(x) && SimpleEnd(k)
    ensures ParseExpr(Cons(Nm(KwYield), Print(x, 0, k))) ==
            match Reparse(x) case None => Err case Some(y) => Ok(Yield(Some(y)), k)
  {
    hide Print, Reparse, ParseTestlist, ParseExpr, Starter, Fits, Wf;
    EndFits(k);
    ReadTestlist(x, k);
    StartsValue(Print(x, 0, k));
    YieldGlue(Print(x, 0, k), Reparse(x), k);
  }

  lemma YieldTop(t: Toks, y: Option<Expr>, k: Toks)
    requires ParseExpr(Cons(Nm(KwYield), t)) == Of(y, k) && SimpleEnd(k)
    ensures ParseTestlist(Cons(Nm(KwYield), t)) == Of(y, k)
    ensures TopHead(Cons(Nm(KwYield), t))
  {
    hide ParseTestlist, ParseExpr, ParseStarOrExpr, TopHead;
    StarlessElt(Cons(Nm(KwYield), t));
    YieldHead(t);
    TestlistOne(Cons(Nm(KwYield), t), y, k);
  }

  lemma {:induction false} ReadTopYieldFrom(x: Expr, k: Toks)
    requires Wf(x) && SimpleEnd(k)
    ensures ParseTestlist(PrintTop(YieldFrom(x), k)) == Of(Reparse(YieldFrom(x)), k)
    ensures TopHead(PrintTop(YieldFrom(x), k))
  {
    hide Print, Reparse, ParseTestlist, ParseExpr, ParseStarOrExpr, Starter, Fits, Wf, TopHead;
    EndFits(k);
    var t := Print(x, 1, k);
    var y := Cons(Nm(KwYield), Cons(Nm(KwFrom), t));
    ReYieldFrom(x);
    ReadExpr(x, 1, k);
    YieldFromGlue(t);
    StarlessElt(y);
    YieldHead(Cons(Nm(KwFrom), t));
    TestlistOne(y, Reparse(YieldFrom(x)), k);
  }

  lemma WfYield(e: Expr)
    requires WfElt(e)
    ensures e.Yield? && e.yvalue.Some? ==> WfElt(e.yvalue.value)
    ensures e.YieldFrom? ==> Wf(e.yfrom)
  {
    if e.Yield? {
      assert Wf(e) && WfOpt(e.yvalue);
      if e.yvalue.Some? {
        assert Wf(e.yvalue.value);
      }
    } else if e.YieldFrom? {
      assert Wf(e);
    }
  }

  lemma YieldPrinted(v: Option<Expr>, k: Toks)
    ensures PrintTop(Yield(v), k) == Cons(Nm(KwYield), if v.Some? then Print(v.value, 0, k) else k)
  {
  }

  lemma YieldHead(t: Toks)
    ensures TopHead(Cons(Nm(KwYield), t))
  {
  }

  lemma YieldAlone(k: Toks)
    requires SimpleEnd(k)
    ensures ParseExpr(Cons(Nm(KwYield), k)) == Ok(Yield(None), k)
  {
    assert ParseExpr(Cons(Nm(KwYield), k)) == ParseYield(Cons(Nm(KwYield), k));
  }

  /** The targets and the value of an assignment, from its first `=`. */
  function Prefixed(x: Expr, r: Res<seq<Expr>>): Res<seq<Expr>> {
    match r case Err => Err case Ok(es, k) => Ok([x] + es, k)
  }

  lemma AssignMore(t: Toks, x: Option<Expr>, u: Toks)
    requires ParseTestlist(t) == Of(x, u)
    ensures AssignTail(Cons(Assign, t)) == match x case None => Err case Some(y) => Prefixed(y, AssignTail(u))
  {
    hide ParseTestlist;
  }

  lemma AssignEnd(k: Toks)
    requires SimpleEnd(k)
    ensures AssignTail(k) == Ok([], k)
  {
  }

  lemma {:induction false} ReadAssignTail(ts: seq<Expr>, v: Expr, k: Toks)
    requires WfElts(ts) && WfElt(v) && SimpleEnd(k)
    ensures AssignTail(Cons(Assign, PrintTargets(ts, Print(v, 0, k)))) ==
            match Both(ReAll(ts), Reparse(v)) case None => Err case Some(x) => Ok(x.0 + [x.1], k)
    decreases ts
  {
    hide Print, Reparse, ReAll, ParseTestlist, Fits, WfElt, TargetStart, AssignTail;
    EndFits(k);
    if ts == [] {
      ReAllEmpty();
      ReadTestlist(v, k);
      AssignMore(Print(v, 0, k), Reparse(v), k);
      AssignEnd(k);
      if Reparse(v).Some? {
        assert [Reparse(v).value] + [] == [] + [Reparse(v).value];
      }
    } else {
      var rest := Cons(Assign, PrintTargets(ts[1..], Print(v, 0, k)));
      NewlineFits(rest.tl);
      ReadTestlist(ts[0], rest);
      ReadAssignTail(ts[1..], v, k);
      AssignMore(Print(ts[0], 0, rest), Reparse(ts[0]), rest);
      ReAllCons(ts);
      if ReAll(ts).Some? && Reparse(v).Some? {
        assert ReAll(ts).value + [Reparse(v).value] ==
               [Reparse(ts[0]).value] + (ReAll(ts[1..]).value + [Reparse(v).value]);
      }
    }
  }

  lemma AssignGlue(t: Toks, lhs: Option<Expr>, u: Toks, vs: Option<seq<Expr>>, k: Toks)
    requires ParseTestlist(t) == Of(lhs, u) && At0(u, Assign) && AssignTail(u) == Of(vs, k)
    requires vs.Some? ==> vs.value != []
    ensures ParseExprStmt(t) == if lhs.None? || vs.None? then Err else AssignOf([lhs.value] + vs.value, k)
  {
    hide ParseTestlist, AssignTail;
  }

  lemma {:induction false} ReadAssign(s: Stmt, k: Toks)
    requires s.AssignStmt? && WfStmt(s) && SimpleEnd(k)
    ensures ParseExprStmt(PrintSimple(s, k)) == Of(ReSimple(s), k)
    ensures TopHead(PrintSimple(s, k))
  {
    hide Print, Reparse, ReAll, ParseTestlist, AssignTail, ParseExprStmt, ValidTargets, Starter, Fits, AssignOf,
      WfElt;
    var ts, v := s.targets, s.avalue;
    var rest := Cons(Assign, PrintTargets(ts[1..], Print(v, 0, k)));
    NewlineFits(rest.tl);
    ReadTestlist(ts[0], rest);
    ReadAssignTail(ts[1..], v, k);
    ReAllCons(ts);
    var vs := if ReAll(ts[1..]).None? || Reparse(v).None? then None
      else Some(ReAll(ts[1..]).value + [Reparse(v).value]);
    assert PrintSimple(s, k) == Print(ts[0], 0, rest);
    AssignGlue(Print(ts[0], 0, rest), Reparse(ts[0]), rest, vs, k);
    if Reparse(ts[0]).Some? && vs.Some? {
      SplitLast([Reparse(ts[0]).value] + vs.value, ReAll(ts).value, Reparse(v).value, k);
    }
  }

  lemma SplitLast(es: seq<Expr>, ts: seq<Expr>, v: Expr, k: Toks)
    requires es == ts + [v] && ts != []
    ensures AssignOf(es, k) == if ValidTargets(ts) then Ok(AssignStmt(ts, v), k) else Err
  {
    hide ValidTargets;
    assert es[..|es| - 1] == ts;
  }

  lemma AugOpSym(op: Operator)
    ensures AugOp(OpSym(op)) == Some(op)
  {
  }

  lemma AugGlue(t: Toks, lhs: Option<Expr>, op: Operator, u: Toks, v: Option<Expr>, k: Toks)
    requires ParseTestlist(t) == Of(lhs, Cons(AugAssign(OpSym(op)), u)) && ParseTestlist(u) == Of(v, k)
    ensures ParseExprStmt(t) ==
      if lhs.None? || v.None? || !ValidTarget(lhs.value) then Err else Ok(AugStmt(lhs.value, op, v.value), k)
  {
    hide ParseTestlist, ValidTarget;
    AugOpSym(op);
  }

  /** An expression printed at any precedence from P_TEST up, read as an expression list. */
  lemma {:induction false} ReadAsList(e: Expr, p: int, k: Toks)
    requires Wf(e) && 1 <= p <= 16 && Fits(1, k) && !At0(k, Comma)
    ensures ParseTestlist(Print(e, p, k)) == Of(Reparse(e), k)
    ensures TopHead(Print(e, p, k))
  {
    hide Print, Reparse, ParseTestlist, ParseExpr, ParseStarOrExpr, Starter, Fits;
    ReadExpr(e, p, k);
    TestlistOne(Print(e, p, k), Reparse(e), k);
  }

  lemma {:induction false} ReadAug(s: Stmt, k: Toks)
    requires s.AugStmt? && WfStmt(s) && SimpleEnd(k)
    ensures ParseExprStmt(PrintSimple(s, k)) == Of(ReSimple(s), k)
    ensures TopHead(PrintSimple(s, k))
  {
    hide Print, Reparse, ParseTestlist, ParseExprStmt, ValidTarget, Starter, Fits;
    var p := if HasStarred(s.svalue) then 16 else 0;
    var v := Print(s.svalue, p, k);
    EndFits(k);
    NewlineFits(v);
    if p == 0 {
      ReadTestlist(s.svalue, k);
    } else {
      assert Wf(s.svalue);
      ReadAsList(s.svalue, 16, k);
    }
    ReadAsList(s.starget, 1, Cons(AugAssign(OpSym(s.op)), v));
    AugGlue(Print(s.starget, 1, Cons(AugAssign(OpSym(s.op)), v)), Reparse(s.starget), s.op, v, Reparse(s.svalue), k);
  }

  lemma AnnGlue(t: Toks, lhs: Option<Expr>, u: Toks, ann: Option<Expr>, w: Toks, v: Option<Option<Expr>>, k: Toks)
    requires ParseTestlist(t) == Of(lhs, Cons(Colon, u)) && ParseExpr(u) == Of(ann, w) && ParseInit(w) == Of(v, k)
    ensures ParseExprStmt(t) ==
      if lhs.None? || ann.None? || v.None? || !ValidTarget(lhs.value) then Err
      else Ok(AnnStmt(lhs.value, ann.value, v.value, lhs.value.Name?), k)
  {
    hide ParseTestlist, ParseExpr, ParseInit, ValidTarget;
  }

  lemma {:induction false} ReadInit(v: Option<Expr>, k: Toks)
    requires WfOpt(v) && SimpleEnd(k)
    ensures ParseInit(if v.Some? then Cons(Assign, Print(v.value, 1, k)) else k) == Of(ReOpt(v), k)
  {
    hide Print, Reparse, ParseTestlist, Fits;
    EndFits(k);
    if v.Some? {
      ReadAsList(v.value, 1, k);
      ReOptSome(v.value);
    } else {
      ReOptNone();
    }
  }

  /** A target in parentheses. */
  lemma {:induction false} ReadParenTarget(e: Expr, k: Toks)
    requires Wf(e) && At0(k, Colon)
    ensures ParseTestlist(Cons(LPar, Print(e, 1, Cons(RPar, k)))) == Of(Reparse(e), k)
  {
    hide Print, Reparse, ParseExpr, ParseAt, Cont, ParseAtom, ParseStarOrExpr, ParseParenAtom, ParseTestlist, Starter,
      Fits, Wf, HeadOk;
    var t := Print(e, 1, Cons(RPar, k));
    NewlineFits(k);
    NewlineFits(k.tl);
    ReadExpr(e, 1, Cons(RPar, k));
    NotCloser(t);
    ParenGlue(t, Reparse(e), k);
    AtomParen(t);
    Levels(Cons(LPar, t), Of(Reparse(e), k));
    Down(16, 1, Cons(LPar, t), Reparse(e), k);
    StarlessElt(Cons(LPar, t));
    TestlistOne(Cons(LPar, t), Reparse(e), k);
  }

  lemma NotCloser(t: Toks)
    requires HeadOk(1, t)
    ensures !At0(t, RPar)
  {
  }

  lemma {:induction false} ReadAnn(s: Stmt, k: Toks)
    requires s.AnnStmt? && WfStmt(s) && SimpleEnd(k)
    ensures ParseExprStmt(PrintSimple(s, k)) == Of(ReSimple(s), k)
    ensures TopHead(PrintSimple(s, k))
  {
    hide Print, Reparse, ReOpt, ParseTestlist, ParseExpr, ParseInit, ParseExprStmt, ValidTarget, Starter, Fits, Wf,
      WfOpt, TopHead;
    var w := if s.init.Some? then Cons(Assign, Print(s.init.value, 1, k)) else k;
    var u := Print(s.ann, 1, w);
    var t := PrintSimple(s, k);
    EndFits(k);
    NewlineFits(w.tl);
    NewlineFits(u);
    ReadInit(s.init, k);
    ReadExpr(s.ann, 1, w);
    if s.simple {
      ReadAsList(s.starget, 1, Cons(Colon, u));
    } else {
      ReadParenTarget(s.starget, Cons(Colon, u));
      ParenHead(t.tl);
    }
    AnnGlue(t, Reparse(s.starget), u, Reparse(s.ann), w, ReOpt(s.init), k);
  }

  lemma ParenHead(t: Toks)
    ensures TopHead(Cons(LPar, t))
  {
  }

  lemma ReturnGlue(t: Toks, v: Option<Expr>, k: Toks)
    requires !StmtEnd(t) && ParseTestlist(t) == Of(v, k)
    ensures ParseSimple(Cons(Nm(KwReturn), t)) == match v case None => Err case Some(x) => Ok(Return(Some(x)), k)
  {
    hide ParseTestlist, StmtEnd;
    assert ParseSimple(Cons(Nm(KwReturn), t)) == ParseReturn(Cons(Nm(KwReturn), t));
  }

  lemma {:induction false} ReadReturn(o: Option<Expr>, k: Toks)
    requires (match o case None => true case Some(v) => WfElt(v)) && SimpleEnd(k)
    ensures ParseSimple(PrintSimple(Return(o), k)) == Of(ReSimple(Return(o)), k)
  {
    hide Print, Reparse, ParseTestlist, Starter, Fits, ParseSimple, TopHead, StmtEnd, LedStart;
    EndFits(k);
    if o.Some? {
      ReadTestlist(o.value, k);
      TopHeads(Print(o.value, 0, k));
      TopIsExpr(Print(o.value, 0, k));
      ReOptSome(o.value);
      ReturnGlue(Print(o.value, 0, k), Reparse(o.value), k);
    } else {
      ReOptNone();
      ReturnNothing(k);
    }
  }

  lemma TopHeads(t: Toks)
    requires TargetStart(t)
    ensures TopHead(t)
  {
  }

  lemma ReturnNothing(k: Toks)
    requires SimpleEnd(k)
    ensures ParseSimple(Cons(Nm(KwReturn), k)) == Ok(Return(None), k)
  {
  }

  /** What leads a simple statement: no compound statement, no clause. */
  predicate SimpleHead(t: Toks) {
    StmtHead(t) && !At0(t, At) && !CompoundStart(t)
  }

  lemma KeywordHead(w: Word, t: Toks)
    requires w == KwPass || w == KwBreak || w == KwContinue || w == KwReturn || LedStart(Cons(Nm(w), t))
    ensures SimpleHead(Cons(Nm(w), t)) && !MatchStart(Cons(Nm(w), t)) && !TypeStart(Cons(Nm(w), t))
  {
    hide ColonAfter;
    assert |"with"| == 4 && |"raise"| == 5 && |"import"| == 6 && |"global"| == 6 && |"nonlocal"| == 8;
    assert |"del"| == 3 && |"assert"| == 6;
  }

  lemma {:induction false} ReadSimple(s: Stmt, k: Toks)
    requires Simple(s) && WfStmt(s) && SimpleEnd(k)
    ensures ParseSimple(PrintSimple(s, k)) == Of(ReSimple(s), k)
    ensures SimpleHead(PrintSimple(s, k))
  {
    hide Print, Reparse, ReAll, ReOpt, ParseTestlist, ParseExprStmt, ParseSimple, TopHead, SimpleHead, ValidTarget,
      ValidTargets;
    if s.ExprStmt? {
      ReadTop(s.value, k);
      ReadExprStmt(PrintTop(s.value, k), Reparse(s.value), k);
      TopSimple(PrintTop(s.value, k));
    } else if s.AssignStmt? {
      ReadAssign(s, k);
      TopSimple(PrintSimple(s, k));
    } else if s.AugStmt? {
      ReadAug(s, k);
      TopSimple(PrintSimple(s, k));
    } else if s.AnnStmt? {
      ReadAnn(s, k);
      TopSimple(PrintSimple(s, k));
    } else if s.Return? {
      ReadReturn(s.result, k);
      KeywordHead(KwReturn, PrintSimple(s, k).tl);
    } else if Led(s) {
      ReadLed(s, k);
      KeywordHead(LedBy(s), PrintLed(s, k));
    } else {
      KeywordHead(if s.Pass? then KwPass else if s.Break? then KwBreak else KwContinue, k);
      KeywordStmt(s, k);
    }
  }

  lemma TopSimple(t: Toks)
    requires TopHead(t)
    ensures ParseSimple(t) == ParseExprStmt(t) && SimpleHead(t)
  {
    hide ParseSimple, ParseExprStmt, TopHead;
    TopIsExpr(t);
  }

  lemma KeywordStmt(s: Stmt, k: Toks)
    requires s.Pass? || s.Break? || s.Continue?
    ensures ParseSimple(PrintSimple(s, k)) == Ok(s, k) && ReSimple(s) == Some(s)
    ensures PrintSimple(s, k) == Cons(Nm(if s.Pass? then KwPass else if s.Break? then KwBreak else KwContinue), k)
  {
  }

  lemma ReadExprStmt(t: Toks, e: Option<Expr>, k: Toks)
    requires ParseTestlist(t) == Of(e, k) && SimpleEnd(k)
    ensures ParseExprStmt(t) == match e case None => Err case Some(x) => Ok(ExprStmt(x), k)
  {
    hide ParseTestlist;
  }

  /** A simple statement alone on its line. */
  lemma SimpleLine(t: Toks, s: Option<Stmt>, k: Toks)
    requires SimpleHead(t) && ParseSimple(t) == Of(s, Cons(Newline, k))
    ensures ParseLine(t) == if MatchStart(t) || TypeStart(t) then Err else One(s, k)
  {
    hide ParseSimple, CompoundStart, MatchStart, TypeStart, StmtHead;
    if !TypeStart(t) {
      assert ParseSimpleList(t) == One(s, k);
    }
  }

  // ----- the names `match` and `type` at the front of a line -----

  /** The bracket that ColonAfter looks for, and the token after it, lie before the first line end or
      semicolon outside brackets. */
  lemma {:induction false} CutColon(t: Toks, d: nat)
    requires d > 0
    ensures ColonAfter(OneLine.Cut(t, d), d) == ColonAfter(t, d)
    decreases t
  {
    if t.Cons? {
      var d' := Layout.Depth(d, t.hd);
      if d' > 0 {
        CutColon(t.tl, d');
      }
    }
  }

  /** Whether a line begins a match statement or a type alias is decided by the line alone. */
  lemma CutSoft(t: Toks)
    ensures MatchStart(OneLine.Cut(t, 0)) == MatchStart(t)
    ensures TypeStart(OneLine.Cut(t, 0)) == TypeStart(t)
  {
    hide ColonAfter;
    if t.Cons? && t.tl.Cons? {
      CutColon(t.tl.tl, 1);
      assert t.hd.Nm? ==> OneLine.Cut(t, 0) == Cons(t.hd, OneLine.Cut(t.tl, 0));
    }
  }

  /** A printed simple statement is taken for another statement exactly when its line is. */
  lemma SoftLine(s: Stmt, k: Toks)
    requires Simple(s) && SimpleEnd(k)
    ensures var t := PrintSimple(s, k); SoftStart(s) <==> MatchStart(t) || TypeStart(t)
    ensures TypeLine(s) <==> TypeStart(PrintSimple(s, k))
  {
    hide PrintSimple, MatchStart, TypeStart;
    CutSoft(PrintSimple(s, k));
    CutSoft(PrintSimple(s, Cons(Newline, End)));
    OneLine.OwnLine(s, k);
    OneLine.OwnLine(s, Cons(Newline, End));
  }

  lemma ReSimpleStmt(s: Stmt)
    requires Simple(s)
    ensures ReStmt(s) == if SoftStart(s) then None else ReSimple(s)
  {
    hide ReSimple, SoftStart;
  }

  // ----- blocks -----

  lemma ReBodyCons(b: seq<Stmt>)
    ensures b == [] ==> ReBody(b) == Some([])
    ensures b != [] ==>
      (ReBody(b) ==
       match Both(ReStmt(b[0]), ReBody(b[1..])) case None => None case Some(x) => Some([x.0] + x.1))
  {
    hide ReStmt;
  }

  predicate BlockEnd(k: Toks) {
    k.End? || k.hd.Dedent?
  }

  lemma BlockStep(t: Toks, s: Option<Stmt>, u: Toks, b: Option<seq<Stmt>>, k: Toks)
    requires StmtHead(t) && ParseLine(t) == One(s, u) && BlockTail(u) == Of(b, k)
    ensures BlockTail(t) == match Both(s, b) case None => Err case Some(x) => Ok([x.0] + x.1, k)
  {
    hide ParseLine;
  }

  lemma BlockDone(k: Toks)
    requires BlockEnd(k)
    ensures BlockTail(k) == Ok([], k)
  {
  }

  lemma EndNoClause(k: Toks)
    ensures BlockEnd(k) || StmtHead(k) ==> NoClause(k)
  {
  }

  /** The statements of a block, up to its end. */
  lemma {:induction false} ReadBody(b: seq<Stmt>, ind: nat, k: Toks)
    requires WfBody(b) && BlockEnd(k)
    ensures BlockTail(PrintBody(false, b, ind, k)) == Of(ReBody(b), k)
    ensures b == [] || StmtHead(PrintBody(false, b, ind, k))
    decreases b, 20
  {
    hide PrintStmt, ReStmt, BlockTail, ParseLine, StmtHead, BlockEnd, NoClause, WfStmt;
    ReBodyCons(b);
    if b == [] {
      BlockDone(k);
    } else {
      var rest := PrintBody(false, b[1..], ind, k);
      ReadBody(b[1..], ind, k);
      EndNoClause(rest);
      ReadStmt(b[0], ind, rest);
      BlockStep(PrintStmt(false, b[0], ind, rest), ReStmt(b[0]), rest, ReBody(b[1..]), k);
    }
  }

  lemma BlockGlue(t: Toks, b: Option<seq<Stmt>>, k: Toks)
    requires BlockTail(t) == Of(b, Cons(Dedent, k))
    ensures ParseBlock(Cons(Colon, Cons(Newline, Cons(Indent, t)))) == Of(b, k)
  {
    hide BlockTail;
  }

  lemma EmptyBlock(k: Toks)
    ensures BlockTail(WordLine(KwPass, Cons(Dedent, k))) == Ok([Pass], Cons(Dedent, k))
  {
    hide ParseSimple, ParseLine, SimpleHead, StmtHead, BlockTail, PrintSimple;
    var t := WordLine(KwPass, Cons(Dedent, k));
    KeywordHead(KwPass, Cons(Newline, Cons(Dedent, k)));
    KeywordStmt(Pass, Cons(Newline, Cons(Dedent, k)));
    SimpleLine(t, Some(Pass), Cons(Dedent, k));
    BlockDone(Cons(Dedent, k));
    HeadOfSimple(t);
    BlockStep(t, Some(Pass), Cons(Dedent, k), Some([]), Cons(Dedent, k));
    assert [Pass] + [] == [Pass];
  }

  lemma SuiteText(b: seq<Stmt>, ind: nat, k: Toks)
    ensures PrintSuite(false, b, ind, k) == Cons(Colon, Cons(Newline, Cons(Indent,
      if b == [] then WordLine(KwPass, Cons(Dedent, k)) else PrintBody(false, b, ind + 1, Cons(Dedent, k)))))
    ensures ReSuite(b) == if b == [] then Some([Pass]) else ReBody(b)
  {
    hide PrintBody, WordLine, ReBody;
  }

  /** A suite, from its colon through its DEDENT. */
  lemma {:induction false} ReadSuite(b: seq<Stmt>, ind: nat, k: Toks)
    requires WfBody(b)
    ensures ParseBlock(PrintSuite(false, b, ind, k)) == Of(ReSuite(b), k)
    ensures At0(PrintSuite(false, b, ind, k), Colon)
    decreases b, 21
  {
    hide PrintSuite, ReSuite, PrintBody, ReBody, BlockTail, ParseBlock, WordLine;
    SuiteText(b, ind, k);
    if b == [] {
      EmptyBlock(k);
      BlockGlue(WordLine(KwPass, Cons(Dedent, k)), Some([Pass]), k);
    } else {
      ReadBody(b, ind + 1, Cons(Dedent, k));
      BlockGlue(PrintBody(false, b, ind + 1, Cons(Dedent, k)), ReBody(b), k);
    }
  }

  /** `else`, when the text has one. */
  lemma {:induction false} ReadElse(b: seq<Stmt>, ind: nat, k: Toks)
    requires WfBody(b) && !IsKw(k, KwElse)
    ensures ParseElse(PrintElse(false, b, ind, k)) == Of(ReBody(b), k)
    decreases b, 22
  {
    hide PrintSuite, ReBody, ParseBlock;
    ReBodyCons(b);
    if b != [] {
      ReadSuite(b, ind, k);
    }
  }

  lemma {:induction false} ReadFinally(b: seq<Stmt>, ind: nat, k: Toks)
    requires WfBody(b) && !IsKw(k, KwFinally)
    ensures ParseFinally(PrintFinally(false, b, ind, k)) == Of(ReBody(b), k)
    decreases b, 22
  {
    hide PrintSuite, ReBody, ParseBlock, ParseFinally, PrintFinally;
    ReBodyCons(b);
    FinallyText(b, ind, k);
    if b != [] {
      ReadSuite(b, ind, k);
    }
    FinallyRead(k, PrintSuite(false, b, ind, k));
  }

  lemma FinallyText(b: seq<Stmt>, ind: nat, k: Toks)
    ensures PrintFinally(false, b, ind, k) == if b == [] then k else Cons(Nm(KwFinally), PrintSuite(false, b, ind, k))
  {
    hide PrintSuite;
  }

  lemma FinallyRead(k: Toks, t: Toks)
    ensures ParseFinally(Cons(Nm(KwFinally), t)) == ParseBlock(t)
    ensures !IsKw(k, KwFinally) ==> ParseFinally(k) == Ok([], k)
  {
    hide ParseBlock;
  }

  // ----- compound statements -----

  /** What a statement's own parser makes of the tokens, and where the line parser sends them. */
  lemma {:induction false} ReadStmt(s: Stmt, ind: nat, k: Toks)
    requires WfStmt(s) && NoClause(k)
    ensures ParseLine(PrintStmt(false, s, ind, k)) == One(ReStmt(s), k)
    ensures StmtHead(PrintStmt(false, s, ind, k))
    decreases s, 20
  {
    hide PrintSimple, PrintIf, PrintWhile, PrintFor, PrintTry, PrintDecorators, PrintDef, PrintClass, ReStmt, WfStmt,
      ParseLine, ParseIf, ParseWhile, ParseFor, ParseTry, NoClause, StmtHead, ParseSimple, SimpleHead, ReSimple,
      SoftStart, MatchStart, TypeStart;
    if Simple(s) {
      ReadSimple(s, Cons(Newline, k));
      SoftLine(s, Cons(Newline, k));
      ReSimpleStmt(s);
      SimpleLine(PrintSimple(s, Cons(Newline, k)), ReSimple(s), k);
      HeadOfSimple(PrintSimple(s, Cons(Newline, k)));
    } else if s.If? {
      ReadIf(KwIf, s, ind, k);
      IfLine(PrintIf(false, KwIf, s, ind, k), ReStmt(s), k);
    } else if s.While? {
      ReadWhile(s, ind, k);
      WhileLine(PrintWhile(false, s, ind, k), ReStmt(s), k);
    } else if s.For? {
      ReadFor(s, ind, k);
    } else if s.Try? {
      ReadTry(s, ind, k);
      TryLine(PrintTry(false, s, ind, k), ReStmt(s), k);
    } else if s.FunctionDef? {
      ReadDef(s, ind, k);
    } else {
      ReadClass(s, ind, k);
    }
  }

  lemma HeadOfSimple(t: Toks)
    requires SimpleHead(t)
    ensures StmtHead(t)
  {
  }

  lemma IfLine(t: Toks, s: Option<Stmt>, k: Toks)
    requires IsKw(t, KwIf) && ParseIf(t) == Of(s, k)
    ensures ParseLine(t) == One(s, k) && StmtHead(t)
  {
    hide ParseIf;
    assert ParseCompound(t) == ParseIf(t);
  }

  lemma WhileLine(t: Toks, s: Option<Stmt>, k: Toks)
    requires IsKw(t, KwWhile) && ParseWhile(t) == Of(s, k)
    ensures ParseLine(t) == One(s, k) && StmtHead(t)
  {
    hide ParseWhile;
    assert ParseCompound(t) == ParseWhile(t);
  }

  lemma TryLine(t: Toks, s: Option<Stmt>, k: Toks)
    requires IsKw(t, KwTry) && ParseTry(t) == Of(s, k)
    ensures ParseLine(t) == One(s, k) && StmtHead(t)
  {
    hide ParseTry, ParseCompound;
    TryCompound(t);
  }

  lemma TryCompound(t: Toks)
    requires IsKw(t, KwTry)
    ensures ParseCompound(t) == ParseTry(t)
  {
    hide ParseIf, ParseWhile, ParseFor, ParseTry, ParseFunctionDef, ParseClassDef, ParseDecorated, ParseAsync,
      DecoratorTail;
  }

  lemma ForText(s: Stmt, ind: nat, k: Toks)
    requires s.For?
    ensures PrintFor(false, s, ind, k) ==
      var t := Cons(Nm(KwFor), Print(s.ftarget, 0, Cons(Nm(KwIn), Print(s.iter, 0,
                 PrintSuite(false, s.body, ind, PrintElse(false, s.orelse, ind, k))))));
      if s.isAsync then Cons(Nm(KwAsync), t) else t
  {
    hide Print, PrintSuite, PrintElse;
  }

  lemma ForLine(isAsync: bool, t: Toks, s: Option<Stmt>, k: Toks)
    requires IsKw(t, KwFor) && ParseFor(isAsync, t) == Of(s, k)
    ensures var u := if isAsync then Cons(Nm(KwAsync), t) else t;
            ParseLine(u) == One(s, k) && StmtHead(u)
  {
    hide ParseFor, ParseAsync, ParseCompound, ParseLine, StmtHead;
    var u := if isAsync then Cons(Nm(KwAsync), t) else t;
    if isAsync {
      AsyncFor(t);
      AsyncCompound(u);
    } else {
      ForCompound(t);
    }
    ForStart(u, s, k);
  }

  lemma ForCompound(t: Toks)
    requires IsKw(t, KwFor)
    ensures ParseCompound(t) == ParseFor(false, t)
  {
    hide ParseIf, ParseWhile, ParseFor, ParseTry, ParseFunctionDef, ParseClassDef, ParseDecorated, ParseAsync,
      DecoratorTail;
  }

  lemma AsyncFor(t: Toks)
    requires IsKw(t, KwFor)
    ensures ParseAsync(Cons(Nm(KwAsync), t)) == ParseFor(true, t)
  {
    hide ParseFor;
  }

  lemma AsyncCompound(t: Toks)
    requires IsKw(t, KwAsync)
    ensures ParseCompound(t) == ParseAsync(t)
  {
    hide ParseIf, ParseWhile, ParseFor, ParseTry, ParseFunctionDef, ParseClassDef, ParseDecorated, ParseAsync,
      DecoratorTail;
  }

  lemma ForStart(t: Toks, s: Option<Stmt>, k: Toks)
    requires (IsKw(t, KwFor) || IsKw(t, KwAsync)) && ParseCompound(t) == Of(s, k)
    ensures ParseLine(t) == One(s, k) && StmtHead(t)
  {
    hide ParseCompound;
  }

  lemma IfGlue(w: Word, t: Toks, test: Option<Expr>, u: Toks, b: Option<seq<Stmt>>, v: Toks, n: Option<Stmt>,
               o: Option<seq<Stmt>>, k: Toks)
    requires ParseExpr(t) == Of(test, u) && ParseBlock(u) == Of(b, v)
    requires if IsKw(v, KwElif) then ParseIf(v) == Of(n, k)
      && o == match n { case None => None case Some(x) => Some([x]) }
             else ParseElse(v) == Of(o, k)
    ensures ParseIf(Cons(Nm(w), t)) ==
      match Three(test, b, o) case None => Err case Some(p) => Ok(If(p.0, p.1, p.2), k)
  {
    hide ParseExpr, ParseBlock, ParseElse;
  }

  lemma ReIfStmt(s: Stmt)
    requires s.If? || s.While?
    ensures ReStmt(s) ==
      match Three(Reparse(s.test), ReSuite(s.body), ReBody(s.orelse))
      case None => None
      case Some(x) => Some(s.(test := x.0, body := x.1, orelse := x.2))
  {
    hide Reparse, ReSuite, ReBody;
  }

  lemma ReOnly(b: seq<Stmt>)
    requires |b| == 1
    ensures ReBody(b) == match ReStmt(b[0]) case None => None case Some(x) => Some([x])
  {
    ReBodyCons(b);
    assert b[1..] == [];
    ReBodyCons(b[1..]);
    hide ReStmt;
    if ReStmt(b[0]).Some? {
      assert [ReStmt(b[0]).value] + [] == [ReStmt(b[0]).value];
    }
  }

  lemma SuiteFits(b: seq<Stmt>, ind: nat, k: Toks)
    ensures Fits(1, PrintSuite(false, b, ind, k)) && At0(PrintSuite(false, b, ind, k), Colon)
  {
    hide PrintBody, WordLine;
  }

  lemma ElseHead(b: seq<Stmt>, ind: nat, k: Toks)
    ensures b == [] ==> PrintElse(false, b, ind, k) == k
    ensures b != [] ==> IsKw(PrintElse(false, b, ind, k), KwElse)
    ensures b == [] ==> PrintFinally(false, b, ind, k) == k
    ensures b != [] ==> IsKw(PrintFinally(false, b, ind, k), KwFinally)
  {
    hide PrintSuite;
  }

  lemma WfBranch(s: Stmt)
    requires (s.If? || s.While?) && WfStmt(s)
    ensures Wf(s.test) && WfBody(s.body) && WfBody(s.orelse)
  {
    hide Wf, WfBody;
  }

  /** What follows the first block of an `if`: an `elif`, an `else`, or neither. */
  function IfRest(s: Stmt, ind: nat, k: Toks): Toks
    requires s.If?
  {
    if IsElif(s.orelse) then PrintIf(false, KwElif, s.orelse[0], ind, k) else PrintElse(false, s.orelse, ind, k)
  }

  lemma PrintIfParts(w: Word, s: Stmt, ind: nat, k: Toks)
    requires s.If?
    ensures PrintIf(false, w, s, ind, k) ==
            Cons(Nm(w), Print(s.test, 1, PrintSuite(false, s.body, ind, IfRest(s, ind, k))))
  {
    hide Print, PrintSuite, PrintElse;
  }

  lemma {:induction false} ReadIfRest(s: Stmt, ind: nat, k: Toks)
    requires s.If? && WfBody(s.orelse) && NoClause(k)
    ensures var v := IfRest(s, ind, k);
            if IsElif(s.orelse) then IsKw(v, KwElif) && ParseIf(v) == Of(ReStmt(s.orelse[0]), k)
            else !IsKw(v, KwElif) && ParseElse(v) == Of(ReBody(s.orelse), k)
    decreases s, 9
  {
    hide ReStmt, ReBody, PrintIf, PrintElse, ParseElse, ParseIf, WfStmt;
    if IsElif(s.orelse) {
      WfOnly(s.orelse);
      ReadIf(KwElif, s.orelse[0], ind, k);
    } else {
      ReadElse(s.orelse, ind, k);
      ElseHead(s.orelse, ind, k);
    }
  }

  lemma {:induction false} ReadIf(w: Word, s: Stmt, ind: nat, k: Toks)
    requires s.If? && WfStmt(s) && NoClause(k)
    ensures ParseIf(PrintIf(false, w, s, ind, k)) == Of(ReStmt(s), k)
    ensures IsKw(PrintIf(false, w, s, ind, k), w)
    decreases s, 10
  {
    hide Print, PrintIf, IfRest, Reparse, ReStmt, ReSuite, ReBody, PrintSuite, ParseExpr, ParseBlock, ParseElse,
      ParseIf, Fits, Wf, WfBody, WfStmt, Starter, NoClause;
    WfBranch(s);
    var v := IfRest(s, ind, k);
    var u := PrintSuite(false, s.body, ind, v);
    ReIfStmt(s);
    PrintIfParts(w, s, ind, k);
    ReadIfRest(s, ind, k);
    if IsElif(s.orelse) {
      ReOnly(s.orelse);
    }
    ReadSuite(s.body, ind, v);
    SuiteFits(s.body, ind, v);
    ReadExpr(s.test, 1, u);
    IfGlue(w, Print(s.test, 1, u), Reparse(s.test), u, ReSuite(s.body), v,
      if IsElif(s.orelse) then ReStmt(s.orelse[0]) else None, ReBody(s.orelse), k);
  }

  lemma WfOnly(b: seq<Stmt>)
    requires WfBody(b) && |b| == 1
    ensures WfStmt(b[0])
  {
    hide WfStmt;
  }

  lemma WhileGlue(t: Toks, test: Option<Expr>, u: Toks, b: Option<seq<Stmt>>, v: Toks, o: Option<seq<Stmt>>, k: Toks)
    requires ParseExpr(t) == Of(test, u) && ParseBlock(u) == Of(b, v) && ParseElse(v) == Of(o, k)
    ensures ParseWhile(Cons(Nm(KwWhile), t)) ==
      match Three(test, b, o) case None => Err case Some(x) => Ok(While(x.0, x.1, x.2), k)
  {
    hide ParseExpr, ParseBlock, ParseElse;
  }

  lemma {:induction false} ReadWhile(s: Stmt, ind: nat, k: Toks)
    requires s.While? && WfStmt(s) && NoClause(k)
    ensures ParseWhile(PrintWhile(false, s, ind, k)) == Of(ReStmt(s), k)
    ensures IsKw(PrintWhile(false, s, ind, k), KwWhile)
    decreases s, 10
  {
    hide Print, Reparse, ReStmt, ReSuite, ReBody, PrintSuite, PrintElse, ParseExpr, ParseBlock, ParseElse, ParseWhile,
      Fits, Wf, WfBody, WfStmt, Starter;
    WfBranch(s);
    ReIfStmt(s);
    var v := PrintElse(false, s.orelse, ind, k);
    var u := PrintSuite(false, s.body, ind, v);
    ReadElse(s.orelse, ind, k);
    ReadSuite(s.body, ind, v);
    SuiteFits(s.body, ind, v);
    ReadExpr(s.test, 1, u);
    WhileGlue(Print(s.test, 1, u), Reparse(s.test), u, ReSuite(s.body), v, ReBody(s.orelse), k);
  }

  lemma ForGlue(isAsync: bool, t: Toks, g: Option<Expr>, i: Toks, it: Option<Expr>, u: Toks, b: Option<seq<Stmt>>,
                v: Toks, o: Option<seq<Stmt>>, k: Toks)
    requires Comes(ParseTargetList(t), g, Cons(Nm(KwIn), i)) && ParseTestlist(i) == Of(it, u)
    requires ParseBlock(u) == Of(b, v) && ParseElse(v) == Of(o, k)
    ensures ParseFor(isAsync, Cons(Nm(KwFor), t)) ==
      match Four(g, it, b, o) case None => Err case Some(x) => Ok(For(isAsync, x.0, x.1, x.2, x.3), k)
  {
    hide ParseTargetList, ParseTestlist, ParseBlock, ParseElse;
  }

  lemma ReFor(s: Stmt)
    requires s.For?
    ensures ReStmt(s) ==
      match Four(ReTarget(s.ftarget), Reparse(s.iter), ReSuite(s.body), ReBody(s.orelse))
      case None => None
      case Some(x) => Some(For(s.isAsync, x.0, x.1, x.2, x.3))
  {
    hide Reparse, ReTarget, ReSuite, ReBody;
  }

  lemma {:induction false} ReadFor(s: Stmt, ind: nat, k: Toks)
    requires s.For? && WfStmt(s) && NoClause(k)
    ensures ParseLine(PrintFor(false, s, ind, k)) == One(ReStmt(s), k)
    ensures StmtHead(PrintFor(false, s, ind, k))
    decreases s, 10
  {
    hide Print, Reparse, ReTarget, ReStmt, ReSuite, ReBody, PrintSuite, PrintElse, PrintFor, ParseTargetList,
      ParseTestlist, ParseBlock, ParseElse, ParseFor, ParseLine, StmtHead, Fits, Starter;
    ReFor(s);
    ForText(s, ind, k);
    var v := PrintElse(false, s.orelse, ind, k);
    var u := PrintSuite(false, s.body, ind, v);
    var i := Print(s.iter, 0, u);
    var t := Print(s.ftarget, 0, Cons(Nm(KwIn), i));
    ReadElse(s.orelse, ind, k);
    ReadSuite(s.body, ind, v);
    SuiteFits(s.body, ind, v);
    ReadTestlist(s.iter, u);
    ReadTarget(s.ftarget, Cons(Nm(KwIn), i));
    ForGlue(s.isAsync, t, ReTarget(s.ftarget), i, Reparse(s.iter), u, ReSuite(s.body), v, ReBody(s.orelse), k);
    ForLine(s.isAsync, Cons(Nm(KwFor), t), ReStmt(s), k);
  }

  // ----- try -----

  lemma HandlerGlue(star: bool, t: Toks, h: Option<Handler>, u: Toks, hs: Res<Handlers>)
    requires t.Cons? && t.hd != Star && ParseHandler(t) == Of(h, u) && HandlerTail(u) == hs
    ensures HandlerTail(Cons(Nm(KwExcept), if star then Cons(Star, t) else t)) ==
      if h.None? || hs.Err? then Err else Ok(Handlers(star || hs.v.star, [h.value] + hs.v.handlers), hs.rest)
  {
    hide ParseHandler;
  }

  lemma BareHandler(t: Toks, b: Option<seq<Stmt>>, k: Toks)
    requires At0(t, Colon) && ParseBlock(t) == Of(b, k)
    ensures ParseHandler(t) == match b case None => Err case Some(x) => Ok(Handler(None, None, x), k)
  {
    hide ParseBlock;
  }

  lemma TypedHandler(t: Toks, e: Option<Expr>, u: Toks, n: Option<string>, v: Toks, b: Option<seq<Stmt>>, k: Toks)
    requires !At0(t, Colon) && ParseExpr(t) == Of(e, u) && !At0(u, Comma) && ParseAs(u) == Ok(n, v)
    requires ParseBlock(v) == Of(b, k)
    ensures ParseHandler(t) == match Both(e, b) case None => Err case Some(x) => Ok(Handler(Some(x.0), n, x.1), k)
  {
    hide ParseExpr, ParseAs, ParseBlock;
  }

  lemma AsFits(k: Toks)
    ensures Fits(1, Cons(Nm(KwAs), k)) && !At0(Cons(Nm(KwAs), k), Comma)
  {
  }

  lemma AsName(n: Option<string>, t: Toks)
    requires At0(t, Colon)
    ensures ParseAs(if n.Some? then Cons(Nm(KwAs), Cons(Nm(Ident(n.value)), t)) else t) == Ok(n, t)
  {
  }

  lemma ReHandlerParts(h: Handler)
    ensures ReHandler(h) ==
      match Both(ReOpt(h.typ), ReSuite(h.body)) case None => None case Some(x) => Some(Handler(x.0, h.name, x.1))
  {
    hide ReOpt, ReSuite;
  }

  /** One handler, after `except` or `except*`. */
  predicate HandlerHead(t: Toks) {
    t.Cons? && t.hd != Star
  }

  function HandlerText(h: Handler, ind: nat, k: Toks): Toks {
    var suite := PrintSuite(false, h.body, ind, k);
    if h.typ.None? then suite
    else Print(h.typ.value, P_TEST,
           if h.name.Some? then Cons(Nm(KwAs), Cons(Nm(Ident(h.name.value)), suite)) else suite)
  }

  lemma HandlerPrint(star: bool, h: Handler, ind: nat, k: Toks)
    ensures PrintHandler(false, star, h, ind, k) ==
            Cons(Nm(KwExcept), if star then Cons(Star, HandlerText(h, ind, k)) else HandlerText(h, ind, k))
  {
    hide Print, PrintSuite;
  }

  lemma NotStarHead(t: Toks)
    requires HeadOk(1, t)
    ensures !At0(t, Star) && !At0(t, Colon)
  {
  }

  lemma {:induction false} ReadHandler(h: Handler, ind: nat, k: Toks)
    requires WfHandler(h)
    ensures ParseHandler(HandlerText(h, ind, k)) == Of(ReHandler(h), k)
    ensures HandlerHead(HandlerText(h, ind, k))
    decreases h
  {
    hide Print, Reparse, ReSuite, ReHandler, PrintSuite, ParseHandler, ParseExpr, ParseStarOrExpr, ParseBlock, ParseAs,
      Fits, Starter;
    var suite := PrintSuite(false, h.body, ind, k);
    ReadSuite(h.body, ind, k);
    SuiteFits(h.body, ind, k);
    ReHandlerParts(h);
    if h.typ.None? {
      ReOptNone();
      BareHandler(suite, ReSuite(h.body), k);
    } else {
      var e := h.typ.value;
      var u := if h.name.Some? then Cons(Nm(KwAs), Cons(Nm(Ident(h.name.value)), suite)) else suite;
      if h.name.Some? {
        AsFits(Cons(Nm(Ident(h.name.value)), suite));
      }
      ReOptSome(e);
      ReadExpr(e, 1, u);
      NotStarHead(Print(e, 1, u));
      AsName(h.name, suite);
      TypedHandler(Print(e, 1, u), Reparse(e), u, h.name, suite, ReSuite(h.body), k);
    }
  }

  lemma ReHandlersCons(hs: seq<Handler>)
    ensures hs == [] ==> ReHandlers(hs) == Some([])
    ensures hs != [] ==>
      (ReHandlers(hs) ==
       match Both(ReHandler(hs[0]), ReHandlers(hs[1..])) case None => None case Some(x) => Some([x.0] + x.1))
  {
    hide ReHandler;
  }

  lemma {:induction false} ReadHandlers(star: bool, hs: seq<Handler>, ind: nat, k: Toks)
    requires WfHandlers(hs) && !IsKw(k, KwExcept)
    ensures HandlerTail(PrintHandlers(false, star, hs, ind, k)) == OfHandlers(star && hs != [], ReHandlers(hs), k)
    decreases hs
  {
    hide PrintHandler, HandlerText, ReHandler, ParseHandler, HandlerTail, ReHandlers, WfHandler;
    ReHandlersCons(hs);
    if hs == [] {
      HandlersEnd(k);
    } else {
      var rest := PrintHandlers(false, star, hs[1..], ind, k);
      ReadHandlers(star, hs[1..], ind, k);
      ReadHandler(hs[0], ind, rest);
      HandlerPrint(star, hs[0], ind, rest);
      HandlerGlue(star, HandlerText(hs[0], ind, rest), ReHandler(hs[0]), rest, HandlerTail(rest));
    }
  }

  lemma HandlersEnd(k: Toks)
    requires !IsKw(k, KwExcept)
    ensures HandlerTail(k) == Ok(Handlers(false, []), k)
  {
  }

  lemma TryGlue(t: Toks, b: Option<seq<Stmt>>, u: Toks, star: bool, hs: Option<seq<Handler>>, w: Toks,
                o: Option<seq<Stmt>>, v: Toks, f: Option<seq<Stmt>>, k: Toks)
    requires ParseBlock(t) == Of(b, u) && HandlerTail(u) == OfHandlers(star, hs, w)
    requires ParseElse(w) == Of(o, v) && ParseFinally(v) == Of(f, k)
    requires hs.Some? && f.Some? ==> hs.value != [] || f.value != []
    ensures ParseTry(Cons(Nm(KwTry), t)) ==
      match Four(b, hs, o, f) case None => Err case Some(x) => Ok(Try(star, x.0, x.1, x.2, x.3), k)
  {
    hide ParseBlock, HandlerTail, ParseElse, ParseFinally;
  }

  function OfHandlers(star: bool, hs: Option<seq<Handler>>, k: Toks): Res<Handlers> {
    match hs case None => Err case Some(x) => Ok(Handlers(star, x), k)
  }

  lemma ReTry(s: Stmt)
    requires s.Try?
    ensures ReStmt(s) ==
      match Four(ReSuite(s.body), ReHandlers(s.handlers), ReBody(s.orelse), ReBody(s.finalbody))
      case None => None
      case Some(x) => Some(Try(s.star, x.0, x.1, x.2, x.3))
  {
    hide ReHandlers, ReSuite, ReBody;
  }

  lemma SameEmptiness(s: Stmt)
    requires s.Try?
    ensures ReHandlers(s.handlers).Some? ==> (ReHandlers(s.handlers).value == [] <==> s.handlers == [])
    ensures ReBody(s.finalbody).Some? ==> (ReBody(s.finalbody).value == [] <==> s.finalbody == [])
  {
    hide ReHandlers, ReBody;
    ReHandlersCons(s.handlers);
    ReBodyCons(s.finalbody);
  }

  lemma WfTry(s: Stmt)
    requires s.Try? && WfStmt(s)
    ensures WfBody(s.body) && WfHandlers(s.handlers) && WfBody(s.orelse) && WfBody(s.finalbody)
    ensures s.handlers == [] ==> s.finalbody != [] && !s.star
  {
    hide WfBody, WfHandlers;
  }

  lemma TryText(s: Stmt, ind: nat, k: Toks)
    requires s.Try?
    ensures PrintTry(false, s, ind, k) == Cons(Nm(KwTry), PrintSuite(false, s.body, ind,
      PrintHandlers(false, s.star, s.handlers, ind,
        PrintElse(false, s.orelse, ind, PrintFinally(false, s.finalbody, ind, k)))))
  {
    hide PrintSuite, PrintHandlers, PrintElse, PrintFinally;
  }

  lemma ClauseWords(k: Toks)
    requires NoClause(k)
    ensures !IsKw(k, KwElse) && !IsKw(k, KwFinally) && !IsKw(k, KwExcept)
  {
  }

  lemma {:induction false} ReadTry(s: Stmt, ind: nat, k: Toks)
    requires s.Try? && WfStmt(s) && NoClause(k)
    ensures ParseTry(PrintTry(false, s, ind, k)) == Of(ReStmt(s), k)
    ensures IsKw(PrintTry(false, s, ind, k), KwTry)
    decreases s, 10
  {
    hide ReStmt, ReSuite, ReBody, ReHandlers, PrintSuite, PrintElse, PrintFinally, PrintHandlers, ParseBlock,
      ParseElse, ParseFinally, HandlerTail, ParseTry, PrintTry, WfBody, WfHandlers, WfStmt, OfHandlers, NoClause;
    WfTry(s);
    TryText(s, ind, k);
    ClauseWords(k);
    var v := PrintFinally(false, s.finalbody, ind, k);
    var w := PrintElse(false, s.orelse, ind, v);
    var u := PrintHandlers(false, s.star, s.handlers, ind, w);
    ElseHead(s.finalbody, ind, k);
    ElseHead(s.orelse, ind, v);
    ReadFinally(s.finalbody, ind, k);
    ReadElse(s.orelse, ind, v);
    ReadHandlers(s.star, s.handlers, ind, w);
    ReadSuite(s.body, ind, u);
    ReTry(s);
    SameEmptiness(s);
    TryGlue(PrintSuite(false, s.body, ind, u), ReSuite(s.body), u, s.star, ReHandlers(s.handlers), w,
      ReBody(s.orelse), v,
      ReBody(s.finalbody), k);
  }

  // ----- definitions -----

  lemma {:induction false} ReadDecorators(ds: seq<Expr>, ind: nat, k: Toks)
    requires WfAll(ds) && !At0(k, At)
    ensures DecoratorTail(PrintDecorators(false, ds, ind, k)) == Of(ReAll(ds), k)
    ensures ds != [] ==> At0(PrintDecorators(false, ds, ind, k), At)
    decreases ds
  {
    hide Print, Reparse, ReAll, ParseExpr, Fits, Wf, Starter, HeadOk, ParseStarOrExpr;
    if ds == [] {
      ReAllEmpty();
    } else {
      var rest := PrintDecorators(false, ds[1..], ind, k);
      NewlineFits(rest);
      ReadExpr(ds[0], 1, Cons(Newline, rest));
      ReadDecorators(ds[1..], ind, k);
      ReAllCons(ds);
      DecoratorGlue(Print(ds[0], 1, Cons(Newline, rest)), Reparse(ds[0]), rest, ReAll(ds[1..]), k);
    }
  }

  lemma DecoratorGlue(t: Toks, d: Option<Expr>, rest: Toks, ds: Option<seq<Expr>>, k: Toks)
    requires ParseExpr(t) == Of(d, Cons(Newline, rest)) && DecoratorTail(rest) == Of(ds, k)
    ensures DecoratorTail(Cons(At, t)) == match Both(d, ds) case None => Err case Some(x) => Ok([x.0] + x.1, k)
  {
    hide ParseExpr;
  }

  predicate DefHead(t: Toks) {
    IsKw(t, KwDef) || IsKw(t, KwClass) || (IsKw(t, KwAsync) && IsKw(t.tl, KwDef))
  }

  /** Decorators and the definition they precede; t is the definition's own text. */
  lemma DecoratedLine(ds: seq<Expr>, ind: nat, t: Toks, s: Option<Stmt>, k: Toks)
    requires WfAll(ds) && DefHead(t)
    requires match ReAll(ds) case None => s == None case Some(x) => ParseDecorated(x, t) == Of(s, k)
    ensures ParseLine(PrintDecorators(false, ds, ind, t)) == One(s, k)
    ensures StmtHead(PrintDecorators(false, ds, ind, t))
  {
    hide DecoratorTail, ParseDecorated, ReAll, ParseFunctionDef, ParseClassDef, PrintDecorators;
    var u := PrintDecorators(false, ds, ind, t);
    ReadDecorators(ds, ind, t);
    if ds == [] {
      ReAllEmpty();
      NoDecorators(ind, t, s, k);
    } else {
      assert ParseCompound(u) == Of(s, k);
      CompoundLine(u, s, k);
    }
  }

  lemma CompoundLine(t: Toks, s: Option<Stmt>, k: Toks)
    requires At0(t, At) && ParseCompound(t) == Of(s, k)
    ensures ParseLine(t) == One(s, k) && StmtHead(t)
  {
    hide ParseCompound;
  }

  lemma NoDecorators(ind: nat, t: Toks, s: Option<Stmt>, k: Toks)
    requires DefHead(t)
    requires ParseDecorated([], t) == Of(s, k)
    ensures PrintDecorators(false, [], ind, t) == t
    ensures ParseLine(t) == One(s, k) && StmtHead(t)
  {
    hide ParseDecorated, ParseLine, StmtHead, ReAll, DefHead;
    PlainDef(t, s, k);
  }

  lemma PlainDef(t: Toks, s: Option<Stmt>, k: Toks)
    requires DefHead(t) && ParseDecorated([], t) == Of(s, k)
    ensures ParseLine(t) == One(s, k) && StmtHead(t)
  {
    hide ParseCompound, ParseDecorated, ParseLine, StmtHead;
    CompoundDef(t);
    DefLine(t, s, k);
  }

  lemma CompoundDef(t: Toks)
    requires DefHead(t)
    ensures ParseCompound(t) == ParseDecorated([], t)
  {
    hide ParseAsync, ParseCompound, ParseFunctionDef, ParseClassDef;
    if IsKw(t, KwAsync) {
      AsyncCompound(t);
      AsyncDef(t);
    } else {
      PlainHead(t);
    }
  }

  lemma AsyncDef(t: Toks)
    requires IsKw(t, KwAsync) && IsKw(Rest(t), KwDef)
    ensures ParseAsync(t) == ParseFunctionDef([], true, Rest(t))
  {
    hide ParseFunctionDef;
  }

  lemma PlainHead(t: Toks)
    requires IsKw(t, KwDef) || IsKw(t, KwClass)
    ensures ParseCompound(t) == if IsKw(t, KwDef) then ParseFunctionDef([], false, t) else ParseClassDef([], t)
  {
    hide ParseIf, ParseWhile, ParseFor, ParseTry, ParseFunctionDef, ParseClassDef, ParseDecorated, ParseAsync,
      DecoratorTail;
  }

  lemma DefLine(t: Toks, s: Option<Stmt>, k: Toks)
    requires DefHead(t) && ParseCompound(t) == Of(s, k)
    ensures ParseLine(t) == One(s, k) && StmtHead(t)
  {
    hide ParseCompound;
  }

  lemma DefGlue(ds: seq<Expr>, isAsync: bool, name: string, t: Toks, ps: Option<Arguments>, r: Toks,
                rt: Option<Option<Expr>>, u: Toks, b: Option<seq<Stmt>>, k: Toks)
    requires ParseParams(t) == Of(ps, Cons(RPar, r)) && ParseReturns(r) == Of(rt, u) && ParseBlock(u) == Of(b, k)
    ensures var def := Cons(Nm(KwDef), Cons(Nm(Ident(name)), Cons(LPar, t)));
            ParseDecorated(ds, if isAsync then Cons(Nm(KwAsync), def) else def) ==
              match Three(ps, rt, b)
              case None => Err
              case Some(x) => Ok(FunctionDef(isAsync, ds, name, x.0, x.1, x.2), k)
  {
    hide ParseFunctionDef, ParseDecorated, ParseParams, ParseReturns, ParseBlock;
    DecoratedDef(ds, isAsync, Cons(Nm(Ident(name)), Cons(LPar, t)));
    FunctionGlue(ds, isAsync, name, t, ps, r, rt, u, b, k);
  }

  lemma DecoratedDef(ds: seq<Expr>, isAsync: bool, t: Toks)
    ensures var def := Cons(Nm(KwDef), t);
            ParseDecorated(ds, if isAsync then Cons(Nm(KwAsync), def) else def) == ParseFunctionDef(ds, isAsync, def)
  {
    hide ParseFunctionDef;
  }

  lemma FunctionGlue(ds: seq<Expr>, isAsync: bool, name: string, t: Toks, ps: Option<Arguments>, r: Toks,
                     rt: Option<Option<Expr>>, u: Toks, b: Option<seq<Stmt>>, k: Toks)
    requires ParseParams(t) == Of(ps, Cons(RPar, r)) && ParseReturns(r) == Of(rt, u) && ParseBlock(u) == Of(b, k)
    ensures ParseFunctionDef(ds, isAsync, Cons(Nm(KwDef), Cons(Nm(Ident(name)), Cons(LPar, t)))) ==
              match Three(ps, rt, b)
              case None => Err
              case Some(x) => Ok(FunctionDef(isAsync, ds, name, x.0, x.1, x.2), k)
  {
    hide ParseParams, ParseReturns, ParseBlock;
    assert ParseAttrName(Cons(Nm(Ident(name)), Cons(LPar, t))) == Ok(name, Cons(LPar, t));
  }

  lemma {:induction false} ReadReturns(r: Option<Expr>, k: Toks)
    requires WfOpt(r) && At0(k, Colon)
    ensures ParseReturns(if r.Some? then Cons(Arrow, Print(r.value, 1, k)) else k) == Of(ReOpt(r), k)
  {
    hide Print, Reparse, ParseExpr, Fits;
    NewlineFits(k.tl);
    if r.Some? {
      ReadExpr(r.value, 1, k);
      ReOptSome(r.value);
    } else {
      ReOptNone();
    }
  }

  lemma ReDef(s: Stmt)
    requires s.FunctionDef?
    ensures ReStmt(s) ==
      match Four(ReAll(s.decorators), ReParams(s.params), ReOpt(s.rtype), ReSuite(s.body))
      case None => None
      case Some(x) => Some(FunctionDef(s.isAsync, x.0, s.name, x.1, x.2, x.3))
  {
    hide ReAll, ReParams, ReOpt, ReSuite;
  }

  lemma WfDef(s: Stmt)
    requires s.FunctionDef? && WfStmt(s)
    ensures WfAll(s.decorators) && WfParams(s.params) && WfOpt(s.rtype) && WfBody(s.body)
  {
    hide WfAll, WfParams, WfOpt, WfBody;
  }

  lemma DefHeads(s: Stmt, ind: nat, k: Toks)
    requires s.FunctionDef?
    ensures DefHead(PrintDef(false, s, ind, k))
  {
    hide PrintArguments, PrintSuite, Print;
  }

  lemma {:induction false} ReadDef(s: Stmt, ind: nat, k: Toks)
    requires s.FunctionDef? && WfStmt(s)
    ensures var t := PrintDecorators(false, s.decorators, ind, PrintDef(false, s, ind, k));
            ParseLine(t) == One(ReStmt(s), k) && StmtHead(t)
    decreases s, 10
  {
    hide Print, PrintArguments, ReAll, ReParams, ReOpt, ReSuite, ReStmt, PrintSuite, PrintDecorators, ParseParams,
      ParseReturns, ParseBlock, ParseDecorated, ParseLine, StmtHead, WfAll, WfParams, WfOpt, WfBody, WfStmt, DefHead;
    WfDef(s);
    DefHeads(s, ind, k);
    var u := PrintSuite(false, s.body, ind, k);
    var r := if s.rtype.Some? then Cons(Arrow, Print(s.rtype.value, P_TEST, u)) else u;
    ReDef(s);
    ReadSuite(s.body, ind, k);
    ReadReturns(s.rtype, u);
    ParamsRoundTrip(s.params, Cons(RPar, r));
    if ReAll(s.decorators).Some? {
      DefGlue(ReAll(s.decorators).value, s.isAsync, s.name, PrintArguments(s.params, Cons(RPar, r)),
        ReParams(s.params), r,
        ReOpt(s.rtype), u, ReSuite(s.body), k);
    }
    DecoratedLine(s.decorators, ind, PrintDef(false, s, ind, k), ReStmt(s), k);
  }

  lemma ClassGlue(ds: seq<Expr>, name: string, t: Toks, c: Res<CallArgs>, b: Option<seq<Stmt>>, k: Toks)
    requires ParseBases(t) == c && (c.Ok? ==> ParseBlock(c.rest) == Of(b, k))
    ensures ParseDecorated(ds, Cons(Nm(KwClass), Cons(Nm(Ident(name)), t))) ==
      if c.Err? || b.None? then Err else Ok(ClassDef(ds, name, c.v.args, c.v.keywords, b.value), k)
  {
    hide ParseBases, ParseBlock;
    var def := Cons(Nm(KwClass), Cons(Nm(Ident(name)), t));
    assert ParseAttrName(def.tl) == Ok(name, t);
    assert ParseDecorated(ds, def) == ParseClassDef(ds, def);
  }

  /** The bases of a class, read like the arguments of a call. */
  lemma {:induction false} ReadBases(bs: seq<Expr>, kws: seq<Keyword>, k: Toks)
    requires WfElts(bs) && WfKeywords(kws) && At0(k, Colon)
    ensures ParseBases(PrintBases(bs, kws, k)) == OfCall(ReAll(bs), ReKeywords(kws), k)
  {
    hide Print, Reparse, ReAll, ReKeywords, ParseCallArgs, PrintJoin, PrintKeywords;
    if bs == [] && kws == [] {
      ReAllEmpty();
      assert ReKeywords([]) == Some([]) by { NoKeywords(); }
    } else {
      ReadCallArgs(Call(Name(""), bs, kws), k);
    }
  }

  lemma NoKeywords()
    ensures ReKeywords([]) == Some([])
  {
  }

  lemma ReClass(s: Stmt)
    requires s.ClassDef?
    ensures ReStmt(s) ==
      match Four(ReAll(s.decorators), ReAll(s.bases), ReKeywords(s.keywords), ReSuite(s.body))
      case None => None
      case Some(x) => Some(ClassDef(x.0, s.name, x.1, x.2, x.3))
  {
    hide ReAll, ReKeywords, ReSuite;
  }

  lemma {:induction false} ReadClass(s: Stmt, ind: nat, k: Toks)
    requires s.ClassDef? && WfStmt(s)
    ensures var t := PrintDecorators(false, s.decorators, ind, PrintClass(false, s, ind, k));
            ParseLine(t) == One(ReStmt(s), k) && StmtHead(t)
    decreases s, 10
  {
    hide PrintBases, ReAll, ReKeywords, ReSuite, ReStmt, PrintSuite, PrintDecorators, ParseBases, ParseBlock,
      ParseDecorated, ParseLine, StmtHead;
    var u := PrintSuite(false, s.body, ind, k);
    ReClass(s);
    ReadSuite(s.body, ind, k);
    ReadBases(s.bases, s.keywords, u);
    if ReAll(s.decorators).Some? {
      ClassGlue(ReAll(s.decorators).value, s.name, PrintBases(s.bases, s.keywords, u),
        OfCall(ReAll(s.bases), ReKeywords(s.keywords), u), ReSuite(s.body), k);
    }
    DecoratedLine(s.decorators, ind, PrintClass(false, s, ind, k), ReStmt(s), k);
  }

  // ----- modules -----

  lemma ModuleStep(t: Toks, s: Option<Stmt>, u: Toks, b: Option<seq<Stmt>>)
    requires StmtHead(t) && ParseLine(t) == One(s, u) && ModuleTail(u) == Of(b, End)
    ensures ModuleTail(t) == match Both(s, b) case None => Err case Some(x) => Ok([x.0] + x.1, End)
  {
    hide ParseLine;
  }

  /** A whole module: its tokens are read to the end. */
  lemma {:induction false} ReadModule(b: seq<Stmt>)
    requires WfBody(b)
    ensures ModuleTail(PrintBody(false, b, 0, End)) == Of(ReBody(b), End)
    ensures b == [] || StmtHead(PrintBody(false, b, 0, End))
    decreases b
  {
    hide PrintStmt, ReStmt, ParseLine, StmtHead, NoClause, WfStmt, ModuleTail;
    ReBodyCons(b);
    if b == [] {
      ModuleEnd();
    } else {
      var rest := PrintBody(false, b[1..], 0, End);
      ReadModule(b[1..]);
      EndNoClause(rest);
      ReadStmt(b[0], 0, rest);
      ModuleStep(PrintStmt(false, b[0], 0, rest), ReStmt(b[0]), rest, ReBody(b[1..]));
    }
  }

  lemma ModuleEnd()
    ensures ModuleTail(End) == Ok([], End)
  {
  }
}
