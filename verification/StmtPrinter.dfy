/** The statement printer as it is written: it appends lines to the buffer of a printer and moves
    the printer's indentation level around each block.  As for expressions, the ghost argument k
    stands for what is written afterwards; the text appended is that of PrintStmt. */
module StmtPrinterState {
  import opened Tokens
  import opened Ast
  import opened Unparse
  import opened UnparseStmt
  import opened PrinterState

  method WriteIndent(p: Printer, ghost k: Toks)
    modifies p`b
    ensures Stream(p.b, k) == Stream(old(p.b), Lead(true, p.indent, k))
  {
    hide Stream;
    ghost var b0 := p.b;
    for i := 0 to p.indent
      invariant Stream(p.b, Spaces(4 * (p.indent - i), k)) == Stream(b0, Spaces(4 * p.indent, k))
    {
      ghost var n := 4 * (p.indent - i);
      p.Write(Space, Spaces(n - 1, k));
      p.Write(Space, Spaces(n - 2, k));
      p.Write(Space, Spaces(n - 3, k));
      p.Write(Space, Spaces(n - 4, k));
    }
  }

  method Body(p: Printer, b: seq<Stmt>, ghost k: Toks)
    modifies p
    ensures p.indent == old(p.indent)
    ensures Stream(p.b, k) == Stream(old(p.b), PrintBody(true, b, p.indent, k))
    decreases b, 20
  {
    hide PrintStmt, Stream;
    ghost var b0 := p.b;
    ghost var ind := p.indent;
    assert b[0..] == b;
    for i := 0 to |b|
      invariant p.indent == ind
      invariant Stream(p.b, PrintBody(true, b[i..], ind, k)) == Stream(b0, PrintBody(true, b, ind, k))
    {
      assert b[i..][0] == b[i] && b[i..][1..] == b[i + 1..];
      Statement(p, b[i], PrintBody(true, b[i + 1..], ind, k));
    }
    assert b[|b|..] == [];
  }

  /** A colon and the block below it, one level deeper. */
  method Suite(p: Printer, b: seq<Stmt>, ghost k: Toks)
    modifies p
    ensures p.indent == old(p.indent)
    ensures Stream(p.b, k) == Stream(old(p.b), PrintSuite(true, b, p.indent, k))
    decreases b, 21
  {
    hide PrintBody, Lead, Stream;
    ghost var ind := p.indent;
    ghost var lines := if b == [] then Lead(true, ind + 1, WordLine(KwPass, k)) else PrintBody(true, b, ind + 1, k);
    p.Write(Colon, Cons(Newline, lines));
    p.Write(Newline, lines);
    p.indent := p.indent + 1;
    if |b| == 0 {
      WriteIndent(p, WordLine(KwPass, k));
      p.Write(Nm(KwPass), Cons(Newline, k));
      p.Write(Newline, k);
    } else {
      Body(p, b, k);
    }
    p.indent := p.indent - 1;
  }

  method Statement(p: Printer, s: Stmt, ghost k: Toks)
    modifies p
    ensures p.indent == old(p.indent)
    ensures Stream(p.b, k) == Stream(old(p.b), PrintStmt(true, s, p.indent, k))
    decreases s, 20
  {
    hide PrintSimple, PrintIf, PrintWhile, PrintFor, PrintTry, PrintDecorators, PrintDef, PrintClass, Lead, Stream;
    if s.FunctionDef? {
      FuncDef(p, s, k);
    } else if s.ClassDef? {
      Class(p, s, k);
    } else if s.If? {
      IfStmt(p, s, false, k);
    } else if s.While? {
      WhileStmt(p, s, k);
    } else if s.For? {
      ForStmt(p, s, k);
    } else if s.Try? {
      TryStmt(p, s, k);
    } else {
      WriteIndent(p, PrintSimple(s, Cons(Newline, k)));
      Simple(p, s, Cons(Newline, k));
      p.Write(Newline, k);
    }
  }

  /** A simple statement, without its indentation and line end. */
  method Simple(p: Printer, s: Stmt, ghost k: Toks)
    requires UnparseStmt.Simple(s)
    modifies p`b
    ensures Stream(p.b, k) == Stream(old(p.b), PrintSimple(s, k))
  {
    hide Print, PrintTop, PrintTargets, HasStarred, Stream;
    if Led(s) {
      p.Write(Nm(LedBy(s)), PrintLed(s, k));
      WriteLed(p, s, k);
      return;
    }
    match s
    case Pass => p.Write(Nm(KwPass), k);
    case Break => p.Write(Nm(KwBreak), k);
    case Continue => p.Write(Nm(KwContinue), k);
    case ExprStmt(e) => Top(p, e, k);
    case Return(o) =>
      p.Write(Nm(KwReturn), if o.Some? then Print(o.value, P_TUPLE, k) else k);
      if o.Some? {
        p.Expr(o.value, P_TUPLE, k);
      }
    case AssignStmt(ts, v) =>
      Targets(p, ts, Print(v, P_TUPLE, k));
      p.Expr(v, P_TUPLE, k);
    case AugStmt(t, op, v) =>
      var starred := TupleHasStarred(v);
      var prec := if starred then P_ATOM else P_TUPLE;
      p.Expr(t, P_TEST, Cons(AugAssign(OpSym(op)), Print(v, prec, k)));
      p.Write(AugAssign(OpSym(op)), Print(v, prec, k));
      p.Expr(v, prec, k);
    case AnnStmt(_, _, _, _) => Annotated(p, s, k);
  }

  /** What follows the word of a statement that has one. */
  method WriteLed(p: Printer, s: Stmt, ghost k: Toks)
    requires Led(s)
    modifies p`b
    ensures Stream(p.b, k) == Stream(old(p.b), PrintLed(s, k))
  {
    hide Print, PrintJoin, PrintAfter, PrintAliases, PrintDots, PrintPath, PrintIds, Stream;
    match s
    case Del(es) => p.Join(Comma, es, P_TEST, k);
    case Assert(e, m) =>
      p.Expr(e, P_TEST, PrintAfter(Comma, m, k));
      After(p, Comma, m, k);
    case Raise(e, c) =>
      if e.Some? {
        p.Expr(e.value, P_TEST, PrintAfter(Nm(KwFrom), c, k));
      }
      After(p, Nm(KwFrom), c, k);
    case Import(names) => Aliases(p, names, k);
    case ImportFrom(level, source, names) =>
      ghost var t := if IsStar(names) then Cons(Star, k) else PrintAliases(names, k);
      ghost var u := Cons(Nm(Reserved("import")), t);
      WriteDots(p, level, PrintPath(source, u));
      Path(p, source, u);
      p.Write(Nm(Reserved("import")), t);
      if |names| == 1 && names[0].path == ["*"] {
        p.Write(Star, k);
      } else {
        Aliases(p, names, k);
      }
    case Declare(_, ids) => Ids(p, ids, k);
  }

  method After(p: Printer, x: Tok, o: Option<Expr>, ghost k: Toks)
    modifies p`b
    ensures Stream(p.b, k) == Stream(old(p.b), PrintAfter(x, o, k))
  {
    hide Print, Stream;
    if o.Some? {
      p.Write(x, Print(o.value, P_TEST, k));
      p.Expr(o.value, P_TEST, k);
    }
  }

  /** The loop over the dots; three of them are one token of the text. */
  method WriteDots(p: Printer, level: nat, ghost k: Toks)
    modifies p`b
    ensures Stream(p.b, k) == Stream(old(p.b), PrintDots(level, k))
  {
    hide Stream;
    var n := level;
    while n > 0
      invariant Stream(p.b, PrintDots(n, k)) == Stream(old(p.b), PrintDots(level, k))
    {
      if n >= 3 {
        p.Write(Dots, PrintDots(n - 3, k));
        n := n - 3;
      } else {
        p.Write(Dot, PrintDots(n - 1, k));
        n := n - 1;
      }
    }
  }

  method Path(p: Printer, path: seq<string>, ghost k: Toks)
    modifies p`b
    ensures Stream(p.b, k) == Stream(old(p.b), PrintPath(path, k))
  {
    hide Stream;
    assert path[0..] == path;
    for i := 0 to |path|
      invariant i < |path| || i == 0 ==> Stream(p.b, PrintPath(path[i..], k)) == Stream(old(p.b), PrintPath(path, k))
      invariant i == |path| ==> Stream(p.b, k) == Stream(old(p.b), PrintPath(path, k))
    {
      assert path[i..][1..] == path[i + 1..];
      if i + 1 < |path| {
        p.Write(Nm(Ident(path[i])), Cons(Dot, PrintPath(path[i + 1..], k)));
        p.Write(Dot, PrintPath(path[i + 1..], k));
      } else {
        p.Write(Nm(Ident(path[i])), k);
      }
    }
  }

  method Aliases(p: Printer, names: seq<Alias>, ghost k: Toks)
    modifies p`b
    ensures Stream(p.b, k) == Stream(old(p.b), PrintAliases(names, k))
  {
    hide Stream, PrintPath;
    assert names[0..] == names;
    for i := 0 to |names|
      invariant i < |names| || i == 0 ==>
        Stream(p.b, PrintAliases(names[i..], k)) == Stream(old(p.b), PrintAliases(names, k))
      invariant i == |names| ==> Stream(p.b, k) == Stream(old(p.b), PrintAliases(names, k))
    {
      assert names[i..][1..] == names[i + 1..];
      ghost var rest := if i + 1 == |names| then k else Cons(Comma, PrintAliases(names[i + 1..], k));
      WriteAlias(p, names[i], rest);
      if i + 1 < |names| {
        p.Write(Comma, PrintAliases(names[i + 1..], k));
      }
    }
  }

  method WriteAlias(p: Printer, a: Alias, ghost k: Toks)
    modifies p`b
    ensures Stream(p.b, k) == Stream(old(p.b), PrintAlias(a, k))
  {
    hide Stream, PrintPath;
    if a.asname.Some? {
      ghost var named := Cons(Nm(Ident(a.asname.value)), k);
      Path(p, a.path, Cons(Nm(KwAs), named));
      p.Write(Nm(KwAs), named);
      p.Write(Nm(Ident(a.asname.value)), k);
    } else {
      Path(p, a.path, k);
    }
  }

  method Ids(p: Printer, ids: seq<string>, ghost k: Toks)
    modifies p`b
    ensures Stream(p.b, k) == Stream(old(p.b), PrintIds(ids, k))
  {
    hide Stream;
    assert ids[0..] == ids;
    for i := 0 to |ids|
      invariant i < |ids| || i == 0 ==> Stream(p.b, PrintIds(ids[i..], k)) == Stream(old(p.b), PrintIds(ids, k))
      invariant i == |ids| ==> Stream(p.b, k) == Stream(old(p.b), PrintIds(ids, k))
    {
      assert ids[i..][1..] == ids[i + 1..];
      if i + 1 < |ids| {
        p.Write(Nm(Ident(ids[i])), Cons(Comma, PrintIds(ids[i + 1..], k)));
        p.Write(Comma, PrintIds(ids[i + 1..], k));
      } else {
        p.Write(Nm(Ident(ids[i])), k);
      }
    }
  }

  method TupleHasStarred(e: Expr) returns (found: bool)
    ensures found == HasStarred(e)
  {
    if !e.Tuple? {
      return false;
    }
    for i := 0 to |e.telts|
      invariant forall j :: 0 <= j < i ==> !e.telts[j].Starred?
    {
      if e.telts[i].Starred? {
        return true;
      }
    }
    found := false;
  }

  method Annotated(p: Printer, s: Stmt, ghost k: Toks)
    requires s.AnnStmt?
    modifies p`b
    ensures Stream(p.b, k) == Stream(old(p.b), PrintSimple(s, k))
  {
    hide Print, Stream;
    ghost var w := if s.init.Some? then Cons(Assign, Print(s.init.value, P_TEST, k)) else k;
    ghost var u := Cons(Colon, Print(s.ann, P_TEST, w));
    if !s.simple {
      p.Write(LPar, Print(s.starget, P_TEST, Cons(RPar, u)));
      p.Expr(s.starget, P_TEST, Cons(RPar, u));
      p.Write(RPar, u);
    } else {
      p.Expr(s.starget, P_TEST, u);
    }
    p.Write(Colon, Print(s.ann, P_TEST, w));
    p.Expr(s.ann, P_TEST, w);
    if s.init.Some? {
      p.Write(Assign, Print(s.init.value, P_TEST, k));
      p.Expr(s.init.value, P_TEST, k);
    }
  }

  /** An expression statement: a yield goes without parentheses. */
  method Top(p: Printer, e: Expr, ghost k: Toks)
    modifies p`b
    ensures Stream(p.b, k) == Stream(old(p.b), PrintTop(e, k))
  {
    hide Print, Stream;
    if e.Yield? {
      p.Write(Nm(KwYield), if e.yvalue.Some? then Print(e.yvalue.value, P_TUPLE, k) else k);
      if e.yvalue.Some? {
        p.Expr(e.yvalue.value, P_TUPLE, k);
      }
    } else if e.YieldFrom? {
      p.Write(Nm(KwYield), Cons(Nm(KwFrom), Print(e.yfrom, P_TEST, k)));
      p.Write(Nm(KwFrom), Print(e.yfrom, P_TEST, k));
      p.Expr(e.yfrom, P_TEST, k);
    } else {
      p.Expr(e, P_TUPLE, k);
    }
  }

  method Targets(p: Printer, ts: seq<Expr>, ghost k: Toks)
    modifies p`b
    ensures Stream(p.b, k) == Stream(old(p.b), PrintTargets(ts, k))
  {
    hide Print, Stream;
    ghost var b0 := p.b;
    assert ts[0..] == ts;
    for i := 0 to |ts|
      invariant Stream(p.b, PrintTargets(ts[i..], k)) == Stream(b0, PrintTargets(ts, k))
    {
      assert ts[i..][0] == ts[i] && ts[i..][1..] == ts[i + 1..];
      p.Expr(ts[i], P_TUPLE, Cons(Assign, PrintTargets(ts[i + 1..], k)));
      p.Write(Assign, PrintTargets(ts[i + 1..], k));
    }
    assert ts[|ts|..] == [];
  }

  /** `if` or `elif`, its block, and what belongs to it. */
  method IfStmt(p: Printer, s: Stmt, isElif: bool, ghost k: Toks)
    requires s.If?
    modifies p
    ensures p.indent == old(p.indent)
    ensures Stream(p.b, k) == Stream(old(p.b), PrintIf(true, if isElif then KwElif else KwIf, s, p.indent, k))
    decreases s, 10
  {
    hide Print, PrintSuite, PrintElse, Lead, Stream;
    ghost var ind := p.indent;
    ghost var rest := if IsElif(s.orelse) then PrintIf(true, KwElif, s.orelse[0], ind, k)
                                else PrintElse(true, s.orelse, ind, k);
    ghost var u := PrintSuite(true, s.body, ind, rest);
    var w := if isElif then KwElif else KwIf;
    WriteIndent(p, Cons(Nm(w), Print(s.test, P_TEST, u)));
    p.Write(Nm(w), Print(s.test, P_TEST, u));
    p.Expr(s.test, P_TEST, u);
    Suite(p, s.body, rest);
    if |s.orelse| == 1 && s.orelse[0].If? {
      IfStmt(p, s.orelse[0], true, k);
      return;
    }
    Else(p, s.orelse, k);
  }

  /** `else` and its block, when there is one. */
  method Else(p: Printer, b: seq<Stmt>, ghost k: Toks)
    modifies p
    ensures p.indent == old(p.indent)
    ensures Stream(p.b, k) == Stream(old(p.b), PrintElse(true, b, p.indent, k))
    decreases b, 22
  {
    hide PrintSuite, Lead, Stream;
    if |b| > 0 {
      ghost var u := PrintSuite(true, b, p.indent, k);
      WriteIndent(p, Cons(Nm(KwElse), u));
      p.Write(Nm(KwElse), u);
      Suite(p, b, k);
    }
  }

  method Finally(p: Printer, b: seq<Stmt>, ghost k: Toks)
    modifies p
    ensures p.indent == old(p.indent)
    ensures Stream(p.b, k) == Stream(old(p.b), PrintFinally(true, b, p.indent, k))
    decreases b, 22
  {
    hide PrintSuite, Lead, Stream;
    if |b| > 0 {
      ghost var u := PrintSuite(true, b, p.indent, k);
      WriteIndent(p, Cons(Nm(KwFinally), u));
      p.Write(Nm(KwFinally), u);
      Suite(p, b, k);
    }
  }

  method WhileStmt(p: Printer, s: Stmt, ghost k: Toks)
    requires s.While?
    modifies p
    ensures p.indent == old(p.indent)
    ensures Stream(p.b, k) == Stream(old(p.b), Lead(true, p.indent, PrintWhile(true, s, p.indent, k)))
    decreases s, 10
  {
    hide Print, PrintSuite, PrintElse, Lead, Stream;
    ghost var rest := PrintElse(true, s.orelse, p.indent, k);
    ghost var u := PrintSuite(true, s.body, p.indent, rest);
    WriteIndent(p, PrintWhile(true, s, p.indent, k));
    p.Write(Nm(KwWhile), Print(s.test, P_TEST, u));
    p.Expr(s.test, P_TEST, u);
    Suite(p, s.body, rest);
    Else(p, s.orelse, k);
  }

  method ForStmt(p: Printer, s: Stmt, ghost k: Toks)
    requires s.For?
    modifies p
    ensures p.indent == old(p.indent)
    ensures Stream(p.b, k) == Stream(old(p.b), Lead(true, p.indent, PrintFor(true, s, p.indent, k)))
    decreases s, 10
  {
    hide Print, PrintSuite, PrintElse, Lead, Stream;
    ghost var rest := PrintElse(true, s.orelse, p.indent, k);
    ghost var u := PrintSuite(true, s.body, p.indent, rest);
    ghost var i := Print(s.iter, P_TUPLE, u);
    ghost var t := Print(s.ftarget, P_TUPLE, Cons(Nm(KwIn), i));
    WriteIndent(p, PrintFor(true, s, p.indent, k));
    if s.isAsync {
      p.Write(Nm(KwAsync), Cons(Nm(KwFor), t));
    }
    p.Write(Nm(KwFor), t);
    p.Expr(s.ftarget, P_TUPLE, Cons(Nm(KwIn), i));
    p.Write(Nm(KwIn), i);
    p.Expr(s.iter, P_TUPLE, u);
    Suite(p, s.body, rest);
    Else(p, s.orelse, k);
  }

  method TryStmt(p: Printer, s: Stmt, ghost k: Toks)
    requires s.Try?
    modifies p
    ensures p.indent == old(p.indent)
    ensures Stream(p.b, k) == Stream(old(p.b), Lead(true, p.indent, PrintTry(true, s, p.indent, k)))
    decreases s, 10
  {
    hide PrintSuite, PrintElse, PrintFinally, PrintHandlers, Lead, Stream;
    ghost var f := PrintFinally(true, s.finalbody, p.indent, k);
    ghost var o := PrintElse(true, s.orelse, p.indent, f);
    ghost var h := PrintHandlers(true, s.star, s.handlers, p.indent, o);
    WriteIndent(p, PrintTry(true, s, p.indent, k));
    p.Write(Nm(KwTry), PrintSuite(true, s.body, p.indent, h));
    Suite(p, s.body, h);
    Handlers(p, s.star, s.handlers, o);
    Else(p, s.orelse, f);
    Finally(p, s.finalbody, k);
  }

  method Handlers(p: Printer, star: bool, hs: seq<Handler>, ghost k: Toks)
    modifies p
    ensures p.indent == old(p.indent)
    ensures Stream(p.b, k) == Stream(old(p.b), PrintHandlers(true, star, hs, p.indent, k))
    decreases hs
  {
    hide PrintHandler, Lead, Stream;
    ghost var b0 := p.b;
    ghost var ind := p.indent;
    assert hs[0..] == hs;
    for i := 0 to |hs|
      invariant p.indent == ind
      invariant Stream(p.b, PrintHandlers(true, star, hs[i..], ind, k)) ==
        Stream(b0, PrintHandlers(true, star, hs, ind, k))
    {
      assert hs[i..][0] == hs[i] && hs[i..][1..] == hs[i + 1..];
      ExcHandler(p, star, hs[i], PrintHandlers(true, star, hs[i + 1..], ind, k));
    }
    assert hs[|hs|..] == [];
  }

  method ExcHandler(p: Printer, star: bool, h: Handler, ghost k: Toks)
    modifies p
    ensures p.indent == old(p.indent)
    ensures Stream(p.b, k) == Stream(old(p.b), Lead(true, p.indent, PrintHandler(true, star, h, p.indent, k)))
    decreases h
  {
    hide Print, PrintSuite, Lead, Stream;
    ghost var u := PrintSuite(true, h.body, p.indent, k);
    ghost var named := if h.name.Some? then Cons(Nm(KwAs), Cons(Nm(Ident(h.name.value)), u)) else u;
    ghost var what := if h.typ.Some? then Print(h.typ.value, P_TEST, named) else u;
    WriteIndent(p, PrintHandler(true, star, h, p.indent, k));
    p.Write(Nm(KwExcept), if star then Cons(Star, what) else what);
    if star {
      p.Write(Star, what);
    }
    if h.typ.Some? {
      p.Expr(h.typ.value, P_TEST, named);
      if h.name.Some? {
        p.Write(Nm(KwAs), Cons(Nm(Ident(h.name.value)), u));
        p.Write(Nm(Ident(h.name.value)), u);
      }
    }
    Suite(p, h.body, k);
  }

  method Decorators(p: Printer, ds: seq<Expr>, ghost k: Toks)
    modifies p`b
    ensures Stream(p.b, k) == Stream(old(p.b), PrintDecorators(true, ds, p.indent, k))
  {
    hide Print, Lead, Stream;
    ghost var b0 := p.b;
    assert ds[0..] == ds;
    for i := 0 to |ds|
      invariant Stream(p.b, PrintDecorators(true, ds[i..], p.indent, k)) ==
        Stream(b0, PrintDecorators(true, ds, p.indent, k))
    {
      assert ds[i..][0] == ds[i] && ds[i..][1..] == ds[i + 1..];
      ghost var rest := PrintDecorators(true, ds[i + 1..], p.indent, k);
      WriteIndent(p, Cons(At, Print(ds[i], P_TEST, Cons(Newline, rest))));
      p.Write(At, Print(ds[i], P_TEST, Cons(Newline, rest)));
      p.Expr(ds[i], P_TEST, Cons(Newline, rest));
      p.Write(Newline, rest);
    }
    assert ds[|ds|..] == [];
  }

  method FuncDef(p: Printer, s: Stmt, ghost k: Toks)
    requires s.FunctionDef?
    modifies p
    ensures p.indent == old(p.indent)
    ensures Stream(p.b, k) ==
            Stream(old(p.b), PrintDecorators(true, s.decorators, p.indent,
              Lead(true, p.indent, PrintDef(true, s, p.indent, k))))
    decreases s, 10
  {
    hide Print, PrintArguments, PrintDecorators, PrintSuite, Lead, Stream;
    ghost var u := PrintSuite(true, s.body, p.indent, k);
    ghost var r := if s.rtype.Some? then Cons(Arrow, Print(s.rtype.value, P_TEST, u)) else u;
    ghost var a := PrintArguments(s.params, Cons(RPar, r));
    ghost var name := Cons(Nm(Ident(s.name)), Cons(LPar, a));
    Decorators(p, s.decorators, Lead(true, p.indent, PrintDef(true, s, p.indent, k)));
    WriteIndent(p, PrintDef(true, s, p.indent, k));
    if s.isAsync {
      p.Write(Nm(KwAsync), Cons(Nm(KwDef), name));
    }
    p.Write(Nm(KwDef), name);
    p.Write(Nm(Ident(s.name)), Cons(LPar, a));
    p.Write(LPar, a);
    p.Params(s.params, Cons(RPar, r));
    p.Write(RPar, r);
    if s.rtype.Some? {
      p.Write(Arrow, Print(s.rtype.value, P_TEST, u));
      p.Expr(s.rtype.value, P_TEST, u);
    }
    Suite(p, s.body, k);
  }

  method Class(p: Printer, s: Stmt, ghost k: Toks)
    requires s.ClassDef?
    modifies p
    ensures p.indent == old(p.indent)
    ensures Stream(p.b, k) ==
            Stream(old(p.b), PrintDecorators(true, s.decorators, p.indent,
              Lead(true, p.indent, PrintClass(true, s, p.indent, k))))
    decreases s, 10
  {
    hide Print, PrintJoin, PrintKeywords, PrintDecorators, PrintSuite, Lead, Stream;
    ghost var u := PrintSuite(true, s.body, p.indent, k);
    ghost var c := PrintBases(s.bases, s.keywords, u);
    Decorators(p, s.decorators, Lead(true, p.indent, PrintClass(true, s, p.indent, k)));
    WriteIndent(p, PrintClass(true, s, p.indent, k));
    p.Write(Nm(KwClass), Cons(Nm(Ident(s.name)), c));
    p.Write(Nm(Ident(s.name)), c);
    if |s.bases| > 0 || |s.keywords| > 0 {
      ghost var kw := PrintKeywords(s.keywords, s.bases == [], Cons(RPar, u));
      p.Write(LPar, PrintJoin(Comma, s.bases, P_TEST, kw));
      p.Join(Comma, s.bases, P_TEST, kw);
      p.Keywords(s.keywords, |s.bases| == 0, Cons(RPar, u));
      p.Write(RPar, u);
    }
    Suite(p, s.body, k);
  }

  /** Unparse: the text of a module. */
  method UnparseModule(b: seq<Stmt>) returns (ts: seq<Tok>)
    ensures Stream(ts, End) == PrintBody(true, b, 0, End)
  {
    hide PrintBody;
    var p := new Printer();
    Body(p, b, End);
    ts := p.b;
  }
}
