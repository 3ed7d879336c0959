/** Statements with a word of their own (`del`, `assert`, `raise`, imports, `global` and `nonlocal`):
    what the printer writes, the parser reads back. */
module LedRoundTrip {
  import opened Tokens
  import opened Ast
  import opened Unparse
  import opened Grammar
  import opened Reading
  import opened Descent
  import opened RoundTrip
  import opened StmtGrammar
  import opened UnparseStmt
  import opened StmtReading

  lemma EndFits(k: Toks)
    requires SimpleEnd(k)
    ensures Fits(1, k) && StmtEnd(k) && !At0(k, Comma) && !At0(k, Nm(KwFrom)) && !At0(k, Dot)
    ensures Fits(1, Cons(Comma, k)) && Fits(1, Cons(Nm(KwFrom), k))
  {
  }

  lemma SepFits(t: Toks)
    ensures Fits(1, Cons(Comma, t)) && Fits(1, Cons(Nm(KwFrom), t))
  {
  }

  /** No statement ends where an expression begins. */
  lemma Begun(t: Toks)
    requires HeadOk(1, t)
    ensures !StmtEnd(t)
  {
  }

  // ----- del -----

  lemma {:induction false} ReadDelList(es: seq<Expr>, k: Toks)
    requires es != [] && WfAll(es) && SimpleEnd(k)
    ensures DelList(PrintJoin(Comma, es, 1, k)) == Of(ReAll(es), k)
    ensures !StmtEnd(PrintJoin(Comma, es, 1, k))
    decreases es
  {
    hide Print, Reparse, ReAll, ParseExpr, DelList, Fits, HeadOk, StmtEnd, Wf;
    EndFits(k);
    TailJoin(Comma, es, 1, k);
    if |es| == 1 {
      assert es[1..] == [];
      NoTail(Comma, k);
      ReAllOne(es);
      ReadExpr(es[0], 1, k);
      Begun(Print(es[0], 1, k));
      DelOne(Print(es[0], 1, k), Reparse(es[0]), k);
    } else {
      var rest := PrintJoin(Comma, es[1..], 1, k);
      ReAllCons(es);
      TailJoin(Comma, es[1..], 1, k);
      SepFits(rest);
      ReadDelList(es[1..], k);
      ReadExpr(es[0], 1, Cons(Comma, rest));
      Begun(Print(es[0], 1, Cons(Comma, rest)));
      DelMore(Print(es[0], 1, Cons(Comma, rest)), Reparse(es[0]), rest, ReAll(es[1..]), k);
    }
  }

  lemma NoTail(sep: Tok, k: Toks)
    ensures PrintTail(sep, [], 1, k) == k
  {
  }

  lemma DelOne(t: Toks, e: Option<Expr>, k: Toks)
    requires ParseExpr(t) == Of(e, k) && !At0(k, Comma)
    ensures DelList(t) == match e case None => Err case Some(x) => Ok([x], k)
  {
    hide ParseExpr;
  }

  lemma DelMore(t: Toks, e: Option<Expr>, rest: Toks, es: Option<seq<Expr>>, k: Toks)
    requires ParseExpr(t) == Of(e, Cons(Comma, rest)) && !StmtEnd(rest) && DelList(rest) == Of(es, k)
    ensures DelList(t) == match Both(e, es) case None => Err case Some(x) => Ok([x.0] + x.1, k)
  {
    hide ParseExpr, StmtEnd;
  }

  // ----- assert and raise -----

  lemma {:induction false} ReadAfter(x: Tok, o: Option<Expr>, k: Toks)
    requires WfOpt(o) && SimpleEnd(k) && (x == Comma || x == Nm(KwFrom))
    ensures ParseAfter(x, PrintAfter(x, o, k)) == Of(ReOpt(o), k)
    ensures Fits(1, PrintAfter(x, o, k))
  {
    hide Print, Reparse, ReOpt, ParseExpr, Fits;
    EndFits(k);
    if o.Some? {
      SepFits(Print(o.value, 1, k));
      ReadExpr(o.value, 1, k);
      ReOptSome(o.value);
    } else {
      ReOptNone();
    }
  }

  lemma {:induction false} ReadAssert(e: Expr, m: Option<Expr>, k: Toks)
    requires Wf(e) && WfOpt(m) && SimpleEnd(k)
    ensures ParseSimple(PrintSimple(Assert(e, m), k)) == Of(ReSimple(Assert(e, m)), k)
  {
    hide Print, PrintAfter, Reparse, ReOpt, ParseExpr, ParseAfter, ParseSimple, Fits, HeadOk, Wf;
    var u := PrintAfter(Comma, m, k);
    ReadAfter(Comma, m, k);
    ReadExpr(e, 1, u);
    AssertGlue(Print(e, 1, u), Reparse(e), u, ReOpt(m), k);
  }

  lemma AssertGlue(t: Toks, e: Option<Expr>, u: Toks, m: Option<Option<Expr>>, k: Toks)
    requires ParseExpr(t) == Of(e, u) && ParseAfter(Comma, u) == Of(m, k)
    ensures ParseSimple(Cons(Nm(Reserved("assert")), t)) ==
      match Both(e, m) case None => Err case Some(x) => Ok(Assert(x.0, x.1), k)
  {
    hide ParseExpr, ParseAfter;
  }

  lemma {:induction false} ReadRaise(e: Option<Expr>, c: Option<Expr>, k: Toks)
    requires WfOpt(e) && WfOpt(c) && (c.Some? ==> e.Some?) && SimpleEnd(k)
    ensures ParseSimple(PrintSimple(Raise(e, c), k)) == Of(ReSimple(Raise(e, c)), k)
  {
    hide Print, PrintAfter, Reparse, ReOpt, ParseExpr, ParseAfter, ParseSimple, Fits, HeadOk, StmtEnd, Wf;
    EndFits(k);
    ReadAfter(Nm(KwFrom), c, k);
    if e.Some? {
      var u := PrintAfter(Nm(KwFrom), c, k);
      ReadExpr(e.value, 1, u);
      Begun(Print(e.value, 1, u));
      ReOptSome(e.value);
      RaiseGlue(Print(e.value, 1, u), Reparse(e.value), u, ReOpt(c), k);
    } else {
      NothingAfter(Nm(KwFrom), k);
      ReOptNone();
      RaiseAlone(k);
    }
  }

  lemma NothingAfter(x: Tok, k: Toks)
    ensures PrintAfter(x, None, k) == k
  {
  }

  lemma RaiseGlue(t: Toks, e: Option<Expr>, u: Toks, c: Option<Option<Expr>>, k: Toks)
    requires !StmtEnd(t) && ParseExpr(t) == Of(e, u) && ParseAfter(Nm(KwFrom), u) == Of(c, k)
    ensures ParseSimple(Cons(Nm(Reserved("raise")), t)) ==
      match Both(e, c) case None => Err case Some(x) => Ok(Raise(e, x.1), k)
  {
    hide ParseExpr, ParseAfter, StmtEnd;
  }

  lemma RaiseAlone(k: Toks)
    requires SimpleEnd(k)
    ensures ParseSimple(Cons(Nm(Reserved("raise")), k)) == Ok(Raise(None, None), k)
  {
  }

  // ----- names -----

  lemma {:induction false} ReadIds(ids: seq<string>, k: Toks)
    requires ids != [] && !At0(k, Comma)
    ensures IdList(PrintIds(ids, k)) == Ok(ids, k)
    decreases ids
  {
    if |ids| > 1 {
      ReadIds(ids[1..], k);
      assert [ids[0]] + ids[1..] == ids;
    } else {
      assert [ids[0]] == ids;
    }
  }

  lemma {:induction false} ReadPath(path: seq<string>, k: Toks)
    requires path != [] && !At0(k, Dot)
    ensures ParsePath(PrintPath(path, k)) == Ok(path, k)
    ensures AtPlainName(PrintPath(path, k))
    decreases path
  {
    if |path| > 1 {
      ReadPath(path[1..], k);
      assert [path[0]] + path[1..] == path;
    } else {
      assert [path[0]] == path;
    }
  }

  /** What may follow an alias: nothing that would go on its path or name it. */
  predicate AliasEnd(k: Toks) {
    !At0(k, Dot) && !IsKw(k, KwAs)
  }

  lemma {:induction false} ReadImports(names: seq<Alias>, k: Toks)
    requires names != [] && (forall a | a in names :: a.path != []) && AliasEnd(k) && !At0(k, Comma)
    ensures ImportList(PrintAliases(names, k)) == Ok(names, k)
    decreases names
  {
    hide ParsePath, PrintPath;
    var a := names[0];
    assert a in names;
    var rest := if |names| == 1 then k else Cons(Comma, PrintAliases(names[1..], k));
    var u := if a.asname.Some? then Cons(Nm(KwAs), Cons(Nm(Ident(a.asname.value)), rest)) else rest;
    ReadPath(a.path, u);
    assert PrintAliases(names, k) == PrintPath(a.path, u);
    assert ParseAsName(u) == Ok(a.asname, rest);
    if |names| > 1 {
      assert forall b | b in names[1..] :: b in names;
      ReadImports(names[1..], k);
      assert [a] + names[1..] == names;
    } else {
      assert [a] == names;
    }
  }

  lemma {:induction false} ReadFroms(names: seq<Alias>, k: Toks)
    requires names != [] && (forall a | a in names :: |a.path| == 1) && AliasEnd(k) && !At0(k, Comma)
    ensures FromList(false, PrintAliases(names, k)) == Ok(names, k)
    ensures var t := PrintAliases(names, k); t.Cons? && t.hd.Nm?
    decreases names
  {
    hide FromList, PrintAliases;
    var a := names[0];
    assert a in names && a.path == [a.path[0]];
    AliasesText(names, k);
    if |names| == 1 {
      assert [a] == names;
      OneFrom(a, k);
    } else {
      assert forall b | b in names[1..] :: b in names;
      ReadFroms(names[1..], k);
      assert [a] + names[1..] == names;
      MoreFrom(a, PrintAliases(names[1..], k));
    }
  }

  lemma AliasesText(names: seq<Alias>, k: Toks)
    requires names != []
    ensures PrintAliases(names, k) ==
            PrintAlias(names[0], if |names| == 1 then k else Cons(Comma, PrintAliases(names[1..], k)))
    ensures |names[0].path| == 1 ==> forall u ::
              PrintAlias(names[0], u) == Cons(Nm(Ident(names[0].path[0])), Named(names[0].asname, u))
  {
    hide PrintPath;
    if |names[0].path| == 1 {
      forall u
        ensures PrintAlias(names[0], u) == Cons(Nm(Ident(names[0].path[0])), Named(names[0].asname, u))
      {
        PathOne(names[0].path, Named(names[0].asname, u));
      }
    }
  }

  /** `as` and a name, when there is one. */
  function Named(n: Option<string>, k: Toks): Toks {
    if n.Some? then Cons(Nm(KwAs), Cons(Nm(Ident(n.value)), k)) else k
  }

  lemma PathOne(path: seq<string>, k: Toks)
    requires |path| == 1
    ensures PrintPath(path, k) == Cons(Nm(Ident(path[0])), k)
  {
  }

  lemma OneFrom(a: Alias, k: Toks)
    requires |a.path| == 1 && AliasEnd(k) && !At0(k, Comma)
    ensures FromList(false, Cons(Nm(Ident(a.path[0])), Named(a.asname, k))) == Ok([a], k)
  {
    assert ParseAsName(Named(a.asname, k)) == Ok(a.asname, k);
    assert a == Alias([a.path[0]], a.asname);
  }

  lemma MoreFrom(a: Alias, t: Toks)
    requires |a.path| == 1
    ensures FromList(false, Cons(Nm(Ident(a.path[0])), Named(a.asname, Cons(Comma, t)))) ==
            match FromList(false, t) case Err => Err case Ok(more, r) => Ok([a] + more, r)
  {
    assert ParseAsName(Named(a.asname, Cons(Comma, t))) == Ok(a.asname, Cons(Comma, t));
    assert a == Alias([a.path[0]], a.asname);
  }

  lemma {:induction false} ReadDots(n: nat, k: Toks)
    requires !At0(k, Dot) && !At0(k, Dots)
    ensures DotLevel(PrintDots(n, k)) == (n, k)
    decreases n
  {
    if n >= 3 {
      ReadDots(n - 3, k);
    } else if n > 0 {
      ReadDots(n - 1, k);
    }
  }

  lemma {:induction false} ReadFrom(level: nat, source: seq<string>, names: seq<Alias>, k: Toks)
    requires names != [] && (forall a | a in names :: |a.path| == 1) && (IsStar(names) ==> names[0].asname == None)
    requires SimpleEnd(k)
    ensures ParseSimple(PrintSimple(ImportFrom(level, source, names), k)) == Ok(ImportFrom(level, source, names), k)
  {
    hide PrintPath, PrintAliases, PrintDots, ParsePath, FromList, DotLevel, ParseFrom, ParseSimple, PrintSimple;
    var t := if IsStar(names) then Cons(Star, k) else PrintAliases(names, k);
    var u := Cons(Nm(Reserved("import")), t);
    var v := PrintPath(source, u);
    if source == [] {
      NoPath(u);
    } else {
      ReadPath(source, u);
    }
    ReadDots(level, v);
    if IsStar(names) {
      assert names == [Alias(["*"], None)];
    } else {
      ReadFroms(names, k);
    }
    FromGlue(PrintDots(level, v), level, v, source, t, names, k);
    FromLine(level, source, names, k);
  }

  lemma FromGlue(d: Toks, level: nat, v: Toks, source: seq<string>, t: Toks, names: seq<Alias>, k: Toks)
    requires DotLevel(d) == (level, v)
    requires var u := Cons(Nm(Reserved("import")), t);
             if source == [] then v == u else AtPlainName(v) && ParsePath(v) == Ok(source, u)
    requires if At0(t, Star) then names == [Alias(["*"], None)] && Rest(t) == k
             else !At0(t, LPar) && FromList(false, t) == Ok(names, k)
    ensures ParseFrom(d) == Ok(ImportFrom(level, source, names), k)
  {
    hide DotLevel, ParsePath, FromList;
  }

  lemma FromLine(level: nat, source: seq<string>, names: seq<Alias>, k: Toks)
    ensures var t := if IsStar(names) then Cons(Star, k) else PrintAliases(names, k);
            ParseSimple(PrintSimple(ImportFrom(level, source, names), k)) ==
              ParseFrom(PrintDots(level, PrintPath(source, Cons(Nm(Reserved("import")), t))))
  {
    hide ParseSimple, PrintSimple, ParseFrom, PrintDots, PrintPath, PrintAliases, IsStar;
    var s := ImportFrom(level, source, names);
    LedPrinted(s, k);
    LedLine(Cons(Nm(KwFrom), PrintLed(s, k)));
  }

  /** A statement that its first word leads. */
  lemma LedLine(t: Toks)
    requires LedStart(t)
    ensures ParseSimple(t) == ParseLed(t)
  {
    hide ParseLed, ParseExprStmt, ParseReturn;
  }

  lemma LedPrinted(s: Stmt, k: Toks)
    requires Led(s)
    ensures PrintSimple(s, k) == Cons(Nm(LedBy(s)), PrintLed(s, k))
  {
    hide PrintLed, Print, PrintTop, PrintTargets;
  }

  lemma NoPath(k: Toks)
    ensures PrintPath([], k) == k
  {
  }

  // ----- all of them -----

  lemma {:induction false} ReadDel(es: seq<Expr>, k: Toks)
    requires es != [] && WfAll(es) && SimpleEnd(k)
    ensures ParseSimple(PrintSimple(Del(es), k)) == Of(ReSimple(Del(es)), k)
  {
    hide PrintJoin, Reparse, ReAll, DelList, ValidTargets, ParseSimple, StmtEnd;
    ReadDelList(es, k);
    DelGlue(PrintJoin(Comma, es, 1, k), ReAll(es), k);
  }

  lemma DelGlue(t: Toks, es: Option<seq<Expr>>, k: Toks)
    requires DelList(t) == Of(es, k)
    ensures ParseSimple(Cons(Nm(Reserved("del")), t)) ==
      if es.None? || !ValidTargets(es.value) then Err else Ok(Del(es.value), k)
  {
    hide DelList, ValidTargets;
  }

  lemma ImportLed(u: Toks)
    ensures var t := Cons(Nm(Reserved("import")), u);
            LedStart(t) && ParseLed(t) == match ImportList(u) case Err => Err case Ok(names, k) => Ok(Import(names), k)
  {
    hide ImportList, IdList, DelList, ParseFrom, ParseRaise, ParseExpr, ParseAfter;
    assert "import"[0] != "raise"[0];
  }

  lemma DeclareLed(g: bool, u: Toks)
    ensures var t := Cons(Nm(Reserved(if g then "global" else "nonlocal")), u);
            LedStart(t) && ParseLed(t) == match IdList(u) case Err => Err case Ok(ids, k) => Ok(Declare(g, ids), k)
  {
    hide ImportList, IdList, DelList, ParseFrom, ParseRaise, ParseExpr, ParseAfter;
    var w := if g then "global" else "nonlocal";
    assert w[0] == if g then 'g' else 'n';
    assert w != "raise" && w != "import" && w != "del" && w != "assert" && (w == "global" <==> g);
  }

  lemma ReadImport(names: seq<Alias>, k: Toks)
    requires names != [] && (forall a | a in names :: a.path != []) && SimpleEnd(k)
    ensures ParseSimple(PrintSimple(Import(names), k)) == Ok(Import(names), k)
  {
    hide PrintAliases, ImportList, ParseSimple, PrintSimple, ParseLed, LedStart;
    ReadImports(names, k);
    LedPrinted(Import(names), k);
    ImportLed(PrintAliases(names, k));
    LedLine(Cons(Nm(Reserved("import")), PrintAliases(names, k)));
  }

  lemma ReadDeclare(g: bool, ids: seq<string>, k: Toks)
    requires ids != [] && SimpleEnd(k)
    ensures ParseSimple(PrintSimple(Declare(g, ids), k)) == Ok(Declare(g, ids), k)
  {
    hide PrintIds, IdList, ParseSimple, PrintSimple, ParseLed, LedStart;
    ReadIds(ids, k);
    LedPrinted(Declare(g, ids), k);
    DeclareLed(g, PrintIds(ids, k));
    LedLine(Cons(Nm(LedBy(Declare(g, ids))), PrintIds(ids, k)));
  }

  lemma {:induction false} ReadLed(s: Stmt, k: Toks)
    requires Led(s) && WfStmt(s) && SimpleEnd(k)
    ensures ParseSimple(PrintSimple(s, k)) == Of(ReSimple(s), k)
    ensures PrintSimple(s, k) == Cons(Nm(LedBy(s)), PrintLed(s, k)) && LedStart(PrintSimple(s, k))
  {
    hide ParseSimple, PrintLed, ReOpt, ReAll, Reparse, ValidTargets;
    if s.Del? {
      ReadDel(s.dels, k);
    } else if s.Assert? {
      ReadAssert(s.check, s.msg, k);
    } else if s.Raise? {
      ReadRaise(s.exc, s.cause, k);
    } else if s.Import? {
      ReadImport(s.names, k);
    } else if s.ImportFrom? {
      ReadFrom(s.level, s.source, s.names, k);
    } else {
      ReadDeclare(s.isGlobal, s.ids, k);
    }
  }
}
