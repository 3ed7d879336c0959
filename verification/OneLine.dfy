/** Printed expressions lie on one line: the layout layer hands their tokens on as they are,
    whatever the brackets around them, and comes out at the depth at which it went in.  In the
    same way a screen that stops at any token a printer never writes lets them through. */
module OneLine {
  import opened Tokens
  import opened Ast
  import opened Unparse
  import opened UnparseStmt
  import opened Layout
  import opened Consumption

  /** What is laid over a text: the layout layer with its stack, a screen, a cut at the end of the
      simple statement, or another text in place of what follows the bracket that closes it. */
  datatype Layer = Lay(stack: Stack) | Screen(tokens: bool) | FirstSimple | Graft(after: Toks)

  /** What the layer makes of k from inside a line, d brackets deep. */
  function Seen(k: Toks, d: nat, s: Layer): Toks {
    match s
    case Lay(stack) => Mid(false, k, d, stack)
    case Screen(tokens) => Clean(tokens, k)
    case FirstSimple => Cut(k, d)
    case Graft(after) => Grafted(k, d, after)
  }

  /** k up to the bracket that closes it d levels out, then `after`. */
  function Grafted(k: Toks, d: nat, after: Toks): Toks {
    if k.End? then Cons(Bad, End)
    else if Closes(k.hd) && d == 0 then Cons(k.hd, after)
    else Cons(k.hd, Grafted(k.tl, Depth(d, k.hd), after))
  }

  /** k up to the first line end or semicolon outside brackets. */
  function Cut(k: Toks, d: nat): Toks {
    if k.End? then End
    else if (k.hd.Newline? || k.hd.Semi?) && d == 0 then Cons(Newline, End)
    else Cons(k.hd, Cut(k.tl, Depth(d, k.hd)))
  }

  /** What a printer writes: content and line ends, and blanks in a text or INDENT and DEDENT in
      a stream of tokens. */
  predicate Written(tokens: bool, x: Tok) {
    Content(x) || x.Newline? || (if tokens then x.Indent? || x.Dedent? else x.Space?)
  }

  /** k up to the first token that no printer writes. */
  function Clean(tokens: bool, k: Toks): Toks {
    if k.Cons? && Written(tokens, k.hd) then Cons(k.hd, Clean(tokens, k.tl)) else End
  }

  /** A token that stays in its statement and opens or closes nothing. */
  predicate Plain(x: Tok) {
    Content(x) && !Opens(x) && !Closes(x) && !x.Semi?
  }

  lemma Flat(x: Tok, k: Toks, d: nat, s: Layer)
    requires Plain(x)
    ensures Seen(Cons(x, k), d, s) == Cons(x, Seen(k, d, s))
  {
  }

  lemma Open(x: Tok, k: Toks, d: nat, s: Layer)
    requires Opens(x)
    ensures Seen(Cons(x, k), d, s) == Cons(x, Seen(k, d + 1, s))
  {
  }

  lemma Shut(x: Tok, k: Toks, d: nat, s: Layer)
    requires Closes(x)
    ensures Seen(Cons(x, k), d + 1, s) == Cons(x, Seen(k, d, s))
  {
  }

  lemma {:induction false} InPrint(e: Expr, p: int, k: Toks, d: nat, s: Layer)
    ensures Seen(Print(e, p, k), d, s) == Print(e, p, Seen(k, d, s))
    decreases e, 4
  {
    hide Seen, Bare;
    if Parens(e, p) {
      InWrapped(e, k, d, s);
    } else {
      InBare(e, k, d, s);
    }
  }

  lemma {:induction false} InWrapped(e: Expr, k: Toks, d: nat, s: Layer)
    ensures Seen(Wrapped(e, k), d, s) == Wrapped(e, Seen(k, d, s))
    decreases e, 3
  {
    hide Seen, Bare;
    Open(LPar, Bare(e, Cons(RPar, k)), d, s);
    InBare(e, Cons(RPar, k), d + 1, s);
    Shut(RPar, k, d, s);
  }

  lemma {:induction false} InBare(e: Expr, k: Toks, d: nat, s: Layer)
    ensures Seen(Bare(e, k), d, s) == Bare(e, Seen(k, d, s))
    decreases e, 2
  {
    hide Seen, Bare;
    if e.Name? || e.Constant? || e.NamedExpr? || e.Lambda? || e.IfExp? {
      InTest(e, k, d, s);
    } else if e.BinOp? || e.UnaryOp? || e.BoolOp? || e.Compare? || e.Await? {
      InOperator(e, k, d, s);
    } else if e.Call? || e.Attribute? || e.Subscript? {
      InTrailer(e, k, d, s);
    } else if e.Starred? || e.Slice? {
      InSpan(e, k, d, s);
    } else if e.Yield? || e.YieldFrom? {
      InYield(e, k, d, s);
    } else if e.DictComp? {
      InDictComp(e, k, d, s);
    } else {
      InDisplay(e, k, d, s);
    }
  }

  lemma {:induction false} InTest(e: Expr, k: Toks, d: nat, s: Layer)
    requires e.Name? || e.Constant? || e.NamedExpr? || e.Lambda? || e.IfExp?
    ensures Seen(Bare(e, k), d, s) == Bare(e, Seen(k, d, s))
    decreases e, 1
  {
    hide Seen, Print, PrintPositional;
    match e
    case Name(id) => Flat(Nm(Ident(id)), k, d, s);
    case Constant(c) => Flat(ConstTok(c), k, d, s);
    case NamedExpr(t, v) =>
      InPrint(t, 16, Cons(Walrus, Print(v, 3, k)), d, s);
      Flat(Walrus, Print(v, 3, k), d, s);
      InPrint(v, 3, k, d, s);
    case Lambda(ps, b) =>
      var k1 := Cons(Colon, Print(b, 1, k));
      Flat(Nm(KwLambda), PrintArguments(ps, k1), d, s);
      InPositional(ps, 0, k1, d, s);
      Flat(Colon, Print(b, 1, k), d, s);
      InPrint(b, 1, k, d, s);
    case IfExp(t, b, o) =>
      var k1 := Print(o, 1, k);
      var k2 := Print(t, 2, Cons(Nm(KwElse), k1));
      InPrint(b, 2, Cons(Nm(KwIf), k2), d, s);
      Flat(Nm(KwIf), k2, d, s);
      InPrint(t, 2, Cons(Nm(KwElse), k1), d, s);
      Flat(Nm(KwElse), k1, d, s);
      InPrint(o, 1, k, d, s);
  }

  lemma {:induction false} InOperator(e: Expr, k: Toks, d: nat, s: Layer)
    requires e.BinOp? || e.UnaryOp? || e.BoolOp? || e.Compare? || e.Await?
    ensures Seen(Bare(e, k), d, s) == Bare(e, Seen(k, d, s))
    decreases e, 1
  {
    hide Seen, Print, PrintComparisons, PrintJoin, Wrapped;
    match e
    case BinOp(op, l, r) =>
      var lp, rp := OpPrec(op), OpPrec(op) + 1;
      if op == Pow {
        lp, rp := 15, 14;
      }
      InPrint(l, lp, Cons(OpSym(op), Print(r, rp, k)), d, s);
      Flat(OpSym(op), Print(r, rp, k), d, s);
      InPrint(r, rp, k, d, s);
    case UnaryOp(op, x) =>
      var p := if op == Not then 5 else 13;
      Flat(UnarySym(op), Print(x, p, k), d, s);
      InPrint(x, p, k, d, s);
    case BoolOp(op, vs) => InJoin(BoolSym(op), vs, BoolPrec(op) + 1, k, d, s);
    case Compare(l, cs) =>
      InPrint(l, 7, PrintComparisons(cs, k), d, s);
      InComparisons(cs, k, d, s);
    case Await(x) =>
      if x.Await? {
        Flat(Nm(KwAwait), Wrapped(x, k), d, s);
        InWrapped(x, k, d, s);
      } else {
        Flat(Nm(KwAwait), Print(x, 15, k), d, s);
        InPrint(x, 15, k, d, s);
      }
  }

  lemma {:induction false} InTrailer(e: Expr, k: Toks, d: nat, s: Layer)
    requires e.Call? || e.Attribute? || e.Subscript?
    ensures Seen(Bare(e, k), d, s) == Bare(e, Seen(k, d, s))
    decreases e, 1
  {
    hide Seen, Print, PrintJoin, PrintKeywords;
    match e
    case Call(f, args, kws) =>
      var k1 := PrintKeywords(kws, args == [], Cons(RPar, k));
      var k2 := PrintJoin(Comma, args, 1, k1);
      InPrint(f, 16, Cons(LPar, k2), d, s);
      Open(LPar, k2, d, s);
      InJoin(Comma, args, 1, k1, d + 1, s);
      InKeywords(kws, args == [], Cons(RPar, k), d + 1, s);
      Shut(RPar, k, d, s);
    case Attribute(v, a) =>
      var k1 := Cons(Dot, Cons(Nm(Ident(a)), k));
      Flat(Dot, Cons(Nm(Ident(a)), k), d, s);
      Flat(Nm(Ident(a)), k, d, s);
      InPrint(v, 16, k1, d, s);
      Open(LPar, Print(v, 16, Cons(RPar, k1)), d, s);
      InPrint(v, 16, Cons(RPar, k1), d + 1, s);
      Shut(RPar, k1, d, s);
    case Subscript(v, x) =>
      var k1 := Cons(RBrk, k);
      InPrint(v, 16, Cons(LBrk, PrintSlice(x, k1)), d, s);
      Open(LBrk, PrintSlice(x, k1), d, s);
      if x.Tuple? && |x.telts| > 1 {
        InJoin(Comma, x.telts, 1, k1, d + 1, s);
      } else {
        InPrint(x, 1, k1, d + 1, s);
      }
      Shut(RBrk, k, d, s);
  }

  lemma {:induction false} InSpan(e: Expr, k: Toks, d: nat, s: Layer)
    requires e.Starred? || e.Slice?
    ensures Seen(Bare(e, k), d, s) == Bare(e, Seen(k, d, s))
    decreases e, 1
  {
    hide Seen, Print, PrintOpt, PrintStep;
    match e
    case Starred(x) =>
      Flat(Star, Print(x, 16, k), d, s);
      InPrint(x, 16, k, d, s);
    case Slice(lo, up, st) =>
      var k1 := PrintStep(st, k);
      var k2 := PrintOpt(up, k1);
      InOpt(lo, Cons(Colon, k2), d, s);
      Flat(Colon, k2, d, s);
      InOpt(up, k1, d, s);
      InStep(st, k, d, s);
  }

  lemma {:induction false} InYield(e: Expr, k: Toks, d: nat, s: Layer)
    requires e.Yield? || e.YieldFrom?
    ensures Seen(Bare(e, k), d, s) == Bare(e, Seen(k, d, s))
    decreases e, 1
  {
    hide Seen, Print;
    match e
    case Yield(v) =>
      var k1 := match v case None => Cons(RPar, k) case Some(x) => Print(x, 0, Cons(RPar, k));
      Open(LPar, Cons(Nm(KwYield), k1), d, s);
      Flat(Nm(KwYield), k1, d + 1, s);
      if v.Some? {
        InPrint(v.value, 0, Cons(RPar, k), d + 1, s);
      }
      Shut(RPar, k, d, s);
    case YieldFrom(x) =>
      var k1 := Print(x, 1, Cons(RPar, k));
      Open(LPar, Cons(Nm(KwYield), Cons(Nm(KwFrom), k1)), d, s);
      Flat(Nm(KwYield), Cons(Nm(KwFrom), k1), d + 1, s);
      Flat(Nm(KwFrom), k1, d + 1, s);
      InPrint(x, 1, Cons(RPar, k), d + 1, s);
      Shut(RPar, k, d, s);
  }

  lemma {:induction false} InDictComp(e: Expr, k: Toks, d: nat, s: Layer)
    requires e.DictComp?
    ensures Seen(Bare(e, k), d, s) == Bare(e, Seen(k, d, s))
    decreases e, 1
  {
    hide Seen, Print, PrintGens;
    var key, x, gs := e.key, e.elt, e.gens;
    Shut(RBrc, k, d, s);
    var k1 := Print(x, 1, PrintGens(gs, Cons(RBrc, k)));
    Open(LBrc, Print(key, 1, Cons(Colon, k1)), d, s);
    InPrint(key, 1, Cons(Colon, k1), d + 1, s);
    Flat(Colon, k1, d + 1, s);
    InPrint(x, 1, PrintGens(gs, Cons(RBrc, k)), d + 1, s);
    InGens(gs, Cons(RBrc, k), d + 1, s);
  }

  lemma {:induction false} InDisplay(e: Expr, k: Toks, d: nat, s: Layer)
    requires e.Dict? || e.Set? || e.ListComp? || e.SetComp? || e.GeneratorExp? || e.ListExpr? || e.Tuple?
    ensures Seen(Bare(e, k), d, s) == Bare(e, Seen(k, d, s))
    decreases e, 1
  {
    hide Seen, Print, PrintJoin, PrintItems, PrintGens;
    Shut(RPar, k, d, s);
    Shut(RBrk, k, d, s);
    Shut(RBrc, k, d, s);
    match e
    case Dict(items) =>
      Open(LBrc, PrintItems(items, true, Cons(RBrc, k)), d, s);
      InItems(items, true, Cons(RBrc, k), d + 1, s);
    case Set(es) =>
      if es == [] {
        Flat(Nm(Ident("set")), Cons(LPar, Cons(RPar, k)), d, s);
        Open(LPar, Cons(RPar, k), d, s);
      } else {
        Open(LBrc, PrintJoin(Comma, es, 1, Cons(RBrc, k)), d, s);
        InJoin(Comma, es, 1, Cons(RBrc, k), d + 1, s);
      }
    case ListComp(_, _) => InComp(e, k, d, s);
    case SetComp(_, _) => InComp(e, k, d, s);
    case GeneratorExp(_, _) => InComp(e, k, d, s);
    case ListExpr(es) =>
      Open(LBrk, PrintJoin(Comma, es, 1, Cons(RBrk, k)), d, s);
      InJoin(Comma, es, 1, Cons(RBrk, k), d + 1, s);
    case Tuple(es) =>
      if es == [] {
        Open(LPar, Cons(RPar, k), d, s);
      } else {
        var k1 := if |es| == 1 then Cons(Comma, k) else k;
        InJoin(Comma, es, 1, k1, d, s);
        Flat(Comma, k, d, s);
      }
  }

  lemma {:induction false} InComp(e: Expr, k: Toks, d: nat, s: Layer)
    requires e.ListComp? || e.SetComp? || e.GeneratorExp?
    ensures Seen(Bare(e, k), d, s) == Bare(e, Seen(k, d, s))
    decreases e, 0
  {
    hide Seen, Print, PrintGens;
    var open, close := LPar, RPar;
    if e.ListComp? {
      open, close := LBrk, RBrk;
    } else if e.SetComp? {
      open, close := LBrc, RBrc;
    }
    var k1 := PrintGens(e.gens, Cons(close, k));
    Open(open, Print(e.elt, 1, k1), d, s);
    InPrint(e.elt, 1, k1, d + 1, s);
    InGens(e.gens, Cons(close, k), d + 1, s);
    Shut(close, k, d, s);
  }

  // ----- lists -----

  lemma {:induction false} InJoin(sep: Tok, es: seq<Expr>, p: int, k: Toks, d: nat, s: Layer)
    requires Plain(sep)
    ensures Seen(PrintJoin(sep, es, p, k), d, s) == PrintJoin(sep, es, p, Seen(k, d, s))
    decreases es, 1
  {
    hide Seen, Print, PrintTail;
    if es != [] {
      InPrint(es[0], p, PrintTail(sep, es[1..], p, k), d, s);
      InTail(sep, es[1..], p, k, d, s);
    }
  }

  lemma {:induction false} InTail(sep: Tok, es: seq<Expr>, p: int, k: Toks, d: nat, s: Layer)
    requires Plain(sep)
    ensures Seen(PrintTail(sep, es, p, k), d, s) == PrintTail(sep, es, p, Seen(k, d, s))
    decreases es, 0
  {
    hide Seen, Print;
    if es != [] {
      var k1 := PrintTail(sep, es[1..], p, k);
      Flat(sep, Print(es[0], p, k1), d, s);
      InPrint(es[0], p, k1, d, s);
      InTail(sep, es[1..], p, k, d, s);
    }
  }

  lemma {:induction false} InComparisons(cs: seq<Comparison>, k: Toks, d: nat, s: Layer)
    ensures Seen(PrintComparisons(cs, k), d, s) == PrintComparisons(cs, Seen(k, d, s))
    decreases cs
  {
    hide Seen, PrintComparison;
    if cs != [] {
      InComparison(cs[0], PrintComparisons(cs[1..], k), d, s);
      InComparisons(cs[1..], k, d, s);
    }
  }

  lemma {:induction false} InComparison(c: Comparison, k: Toks, d: nat, s: Layer)
    ensures Seen(PrintComparison(c, k), d, s) == PrintComparison(c, Seen(k, d, s))
    decreases c
  {
    hide Seen, Print, CmpSym;
    InPrint(c.right, 7, k, d, s);
    InCmp(c.op, Print(c.right, 7, k), d, s);
  }

  lemma InCmp(op: CmpOp, k: Toks, d: nat, s: Layer)
    ensures Seen(CmpSym(op, k), d, s) == CmpSym(op, Seen(k, d, s))
  {
    hide Seen;
    if op == IsNot {
      Flat(Nm(KwNot), k, d, s);
      Flat(Nm(KwIs), Cons(Nm(KwNot), k), d, s);
    } else if op == NotIn {
      Flat(Nm(KwIn), k, d, s);
      Flat(Nm(KwNot), Cons(Nm(KwIn), k), d, s);
    } else {
      Flat(CmpSym(op, k).hd, k, d, s);
    }
  }

  lemma {:induction false} InItems(items: seq<DictItem>, first: bool, k: Toks, d: nat, s: Layer)
    ensures Seen(PrintItems(items, first, k), d, s) == PrintItems(items, first, Seen(k, d, s))
    decreases items
  {
    hide Seen, PrintItem;
    if items != [] {
      var k1 := PrintItems(items[1..], false, k);
      Flat(Comma, PrintItem(items[0], k1), d, s);
      InItem(items[0], k1, d, s);
      InItems(items[1..], false, k, d, s);
    }
  }

  lemma {:induction false} InItem(it: DictItem, k: Toks, d: nat, s: Layer)
    ensures Seen(PrintItem(it, k), d, s) == PrintItem(it, Seen(k, d, s))
    decreases it
  {
    hide Seen, Print;
    match it.key
    case None =>
      Flat(DStar, Print(it.value, 7, k), d, s);
      InPrint(it.value, 7, k, d, s);
    case Some(key) =>
      InPrint(key, 1, Cons(Colon, Print(it.value, 1, k)), d, s);
      Flat(Colon, Print(it.value, 1, k), d, s);
      InPrint(it.value, 1, k, d, s);
  }

  lemma {:induction false} InKeywords(kws: seq<Keyword>, first: bool, k: Toks, d: nat, s: Layer)
    ensures Seen(PrintKeywords(kws, first, k), d, s) == PrintKeywords(kws, first, Seen(k, d, s))
    decreases kws
  {
    hide Seen, PrintKeyword;
    if kws != [] {
      var k1 := PrintKeywords(kws[1..], false, k);
      Flat(Comma, PrintKeyword(kws[0], k1), d, s);
      InKeyword(kws[0], k1, d, s);
      InKeywords(kws[1..], false, k, d, s);
    }
  }

  lemma {:induction false} InKeyword(kw: Keyword, k: Toks, d: nat, s: Layer)
    ensures Seen(PrintKeyword(kw, k), d, s) == PrintKeyword(kw, Seen(k, d, s))
    decreases kw
  {
    hide Seen, Print;
    var v := Print(kw.value, 1, k);
    InPrint(kw.value, 1, k, d, s);
    match kw.arg
    case None => Flat(DStar, v, d, s);
    case Some(a) =>
      Flat(Nm(Ident(a)), Cons(Assign, v), d, s);
      Flat(Assign, v, d, s);
  }

  lemma {:induction false} InGens(gs: seq<Comprehension>, k: Toks, d: nat, s: Layer)
    ensures Seen(PrintGens(gs, k), d, s) == PrintGens(gs, Seen(k, d, s))
    decreases gs
  {
    hide Seen, PrintGen;
    if gs != [] {
      InGen(gs[0], PrintGens(gs[1..], k), d, s);
      InGens(gs[1..], k, d, s);
    }
  }

  lemma {:induction false} InGen(g: Comprehension, k: Toks, d: nat, s: Layer)
    ensures Seen(PrintGen(g, k), d, s) == PrintGen(g, Seen(k, d, s))
    decreases g
  {
    hide Seen, Print, PrintIfs;
    var k1 := Print(g.iter, 3, PrintIfs(g.ifs, k));
    var k2 := Print(g.target, 0, Cons(Nm(KwIn), k1));
    Flat(Nm(KwAsync), Cons(Nm(KwFor), k2), d, s);
    Flat(Nm(KwFor), k2, d, s);
    InPrint(g.target, 0, Cons(Nm(KwIn), k1), d, s);
    Flat(Nm(KwIn), k1, d, s);
    InPrint(g.iter, 3, PrintIfs(g.ifs, k), d, s);
    InIfs(g.ifs, k, d, s);
  }

  lemma {:induction false} InIfs(ifs: seq<Expr>, k: Toks, d: nat, s: Layer)
    ensures Seen(PrintIfs(ifs, k), d, s) == PrintIfs(ifs, Seen(k, d, s))
    decreases ifs
  {
    hide Seen, Print;
    if ifs != [] {
      var k1 := PrintIfs(ifs[1..], k);
      Flat(Nm(KwIf), Print(ifs[0], 3, k1), d, s);
      InPrint(ifs[0], 3, k1, d, s);
      InIfs(ifs[1..], k, d, s);
    }
  }

  lemma {:induction false} InOpt(o: Option<Expr>, k: Toks, d: nat, s: Layer)
    ensures Seen(PrintOpt(o, k), d, s) == PrintOpt(o, Seen(k, d, s))
    decreases o
  {
    hide Seen, Print;
    if o.Some? {
      InPrint(o.value, 1, k, d, s);
    }
  }

  lemma {:induction false} InStep(o: Option<Expr>, k: Toks, d: nat, s: Layer)
    ensures Seen(PrintStep(o, k), d, s) == PrintStep(o, Seen(k, d, s))
    decreases o
  {
    hide Seen, Print;
    if o.Some? {
      Flat(Colon, Print(o.value, 1, k), d, s);
      InPrint(o.value, 1, k, d, s);
    }
  }

  // ----- parameter lists -----

  lemma {:induction false} InParam(v: Param, k: Toks, d: nat, s: Layer)
    ensures Seen(PrintParam(v, k), d, s) == PrintParam(v, Seen(k, d, s))
    decreases v
  {
    hide Seen, Print;
    match v.ann
    case None => Flat(Nm(Ident(v.name)), k, d, s);
    case Some(x) =>
      Flat(Nm(Ident(v.name)), Cons(Colon, Print(x, 1, k)), d, s);
      Flat(Colon, Print(x, 1, k), d, s);
      InPrint(x, 1, k, d, s);
  }

  lemma InSep(first: bool, k: Toks, d: nat, s: Layer)
    ensures Seen(Sep(first, k), d, s) == Sep(first, Seen(k, d, s))
  {
    hide Seen;
    Flat(Comma, k, d, s);
  }

  lemma {:induction false} InPositional(a: Arguments, i: nat, k: Toks, d: nat, s: Layer)
    requires i <= PosCount(a)
    ensures Seen(PrintPositional(a, i, k), d, s) == PrintPositional(a, i, Seen(k, d, s))
    decreases a, 3, PosCount(a) - i
  {
    hide Seen, Print, PrintParam, PrintStar, Sep;
    if i == PosCount(a) {
      InStar(a, i == 0, k, d, s);
    } else {
      var rest := PrintPositional(a, i + 1, k);
      InPositional(a, i + 1, k, d, s);
      Flat(Slash, rest, d, s);
      Flat(Comma, Cons(Slash, rest), d, s);
      var k1 := if i + 1 == |a.posonly| then Cons(Comma, Cons(Slash, rest)) else rest;
      var def := PosDefault(a, i);
      var k2 := k1;
      if def.Some? {
        k2 := Cons(Assign, Print(def.value, 1, k1));
        Flat(Assign, Print(def.value, 1, k1), d, s);
        InPrint(def.value, 1, k1, d, s);
      }
      InParam(Positional(a, i), k2, d, s);
      InSep(i == 0, PrintParam(Positional(a, i), k2), d, s);
    }
  }

  lemma {:induction false} InStar(a: Arguments, first: bool, k: Toks, d: nat, s: Layer)
    ensures Seen(PrintStar(a, first, k), d, s) == PrintStar(a, first, Seen(k, d, s))
    decreases a, 2
  {
    hide Seen, Print, PrintParam, PrintKwOnly, Sep;
    var k1 := PrintKwOnly(a, 0, false, k);
    InKwOnly(a, 0, false, k, d, s);
    InKwOnly(a, 0, first, k, d, s);
    Flat(Star, k1, d, s);
    InSep(first, Cons(Star, k1), d, s);
    if a.vararg.Some? {
      InParam(a.vararg.value, k1, d, s);
      Flat(Star, PrintParam(a.vararg.value, k1), d, s);
      InSep(first, Cons(Star, PrintParam(a.vararg.value, k1)), d, s);
    }
  }

  lemma {:induction false} InKwOnly(a: Arguments, i: nat, first: bool, k: Toks, d: nat, s: Layer)
    requires i <= |a.kwonly|
    ensures Seen(PrintKwOnly(a, i, first, k), d, s) == PrintKwOnly(a, i, first, Seen(k, d, s))
    decreases a, 1, |a.kwonly| - i
  {
    hide Seen, Print, PrintParam, Sep;
    if i == |a.kwonly| {
      if a.kwarg.Some? {
        InParam(a.kwarg.value, k, d, s);
        Flat(DStar, PrintParam(a.kwarg.value, k), d, s);
        InSep(first, Cons(DStar, PrintParam(a.kwarg.value, k)), d, s);
      }
    } else {
      var k1 := PrintKwOnly(a, i + 1, false, k);
      InKwOnly(a, i + 1, false, k, d, s);
      var def := KwDefault(a, i);
      var k2 := k1;
      if def.Some? {
        k2 := Cons(Assign, Print(def.value, 1, k1));
        Flat(Assign, Print(def.value, 1, k1), d, s);
        InPrint(def.value, 1, k1, d, s);
      }
      InParam(a.kwonly[i], k2, d, s);
      InSep(first, PrintParam(a.kwonly[i], k2), d, s);
    }
  }

  // ----- simple statements -----

  lemma {:induction false} InTop(e: Expr, k: Toks, s: Layer)
    ensures Seen(PrintTop(e, k), 0, s) == PrintTop(e, Seen(k, 0, s))
  {
    hide Seen, Print;
    if e.Yield? {
      var t := if e.yvalue.Some? then Print(e.yvalue.value, 0, k) else k;
      Flat(Nm(KwYield), t, 0, s);
      if e.yvalue.Some? {
        InPrint(e.yvalue.value, 0, k, 0, s);
      }
    } else if e.YieldFrom? {
      var t := Print(e.yfrom, 1, k);
      Flat(Nm(KwYield), Cons(Nm(KwFrom), t), 0, s);
      Flat(Nm(KwFrom), t, 0, s);
      InPrint(e.yfrom, 1, k, 0, s);
    } else {
      InPrint(e, 0, k, 0, s);
    }
  }

  lemma {:induction false} InTargets(ts: seq<Expr>, k: Toks, s: Layer)
    ensures Seen(PrintTargets(ts, k), 0, s) == PrintTargets(ts, Seen(k, 0, s))
    decreases ts
  {
    hide Seen, Print;
    if ts != [] {
      var rest := PrintTargets(ts[1..], k);
      InPrint(ts[0], 0, Cons(Assign, rest), 0, s);
      Flat(Assign, rest, 0, s);
      InTargets(ts[1..], k, s);
    }
  }

  lemma {:induction false} InSimple(st: Stmt, k: Toks, s: Layer)
    requires Simple(st)
    ensures Seen(PrintSimple(st, k), 0, s) == PrintSimple(st, Seen(k, 0, s))
  {
    hide Seen, Print, PrintTop, PrintTargets, HasStarred;
    if Led(st) {
      Flat(Nm(LedBy(st)), PrintLed(st, k), 0, s);
      InLed(st, k, s);
    } else {
      InPlain(st, k, s);
    }
  }

  lemma {:induction false} InPlain(st: Stmt, k: Toks, s: Layer)
    requires Simple(st) && !Led(st)
    ensures Seen(PrintSimple(st, k), 0, s) == PrintSimple(st, Seen(k, 0, s))
  {
    hide Seen, Print, PrintTop, PrintTargets, HasStarred;
    match st
    case Pass => Flat(Nm(KwPass), k, 0, s);
    case Break => Flat(Nm(KwBreak), k, 0, s);
    case Continue => Flat(Nm(KwContinue), k, 0, s);
    case ExprStmt(e) => InTop(e, k, s);
    case Return(o) =>
      var t := if o.Some? then Print(o.value, 0, k) else k;
      Flat(Nm(KwReturn), t, 0, s);
      if o.Some? {
        InPrint(o.value, 0, k, 0, s);
      }
    case AssignStmt(ts, v) =>
      InTargets(ts, Print(v, 0, k), s);
      InPrint(v, 0, k, 0, s);
    case AugStmt(t, op, v) =>
      var p := if HasStarred(v) then 16 else 0;
      InPrint(t, 1, Cons(AugAssign(OpSym(op)), Print(v, p, k)), 0, s);
      Flat(AugAssign(OpSym(op)), Print(v, p, k), 0, s);
      InPrint(v, p, k, 0, s);
    case AnnStmt(_, _, _, _) => InAnn(st, k, s);
  }

  lemma {:induction false} InLed(st: Stmt, k: Toks, s: Layer)
    requires Led(st)
    ensures Seen(PrintLed(st, k), 0, s) == PrintLed(st, Seen(k, 0, s))
  {
    hide Seen, Print, PrintJoin, PrintAfter, PrintAliases, PrintIds, PrintDots, PrintPath;
    match st
    case Del(es) => InJoin(Comma, es, 1, k, 0, s);
    case Assert(e, m) =>
      InPrint(e, 1, PrintAfter(Comma, m, k), 0, s);
      InAfter(Comma, m, k, s);
    case Raise(e, c) =>
      InAfter(Nm(KwFrom), c, k, s);
      if e.Some? {
        InPrint(e.value, 1, PrintAfter(Nm(KwFrom), c, k), 0, s);
      }
    case Import(names) => InAliases(names, k, s);
    case ImportFrom(level, source, names) =>
      var t := if IsStar(names) then Cons(Star, k) else PrintAliases(names, k);
      Flat(Star, k, 0, s);
      InAliases(names, k, s);
      Flat(Nm(Reserved("import")), t, 0, s);
      InPath(source, Cons(Nm(Reserved("import")), t), s);
      InDots(level, PrintPath(source, Cons(Nm(Reserved("import")), t)), s);
    case Declare(_, ids) => InIds(ids, k, s);
  }

  lemma {:induction false} InAfter(x: Tok, o: Option<Expr>, k: Toks, s: Layer)
    requires x == Comma || x == Nm(KwFrom)
    ensures Seen(PrintAfter(x, o, k), 0, s) == PrintAfter(x, o, Seen(k, 0, s))
  {
    hide Seen, Print;
    if o.Some? {
      Flat(x, Print(o.value, 1, k), 0, s);
      InPrint(o.value, 1, k, 0, s);
    }
  }

  lemma {:induction false} InDots(n: nat, k: Toks, s: Layer)
    ensures Seen(PrintDots(n, k), 0, s) == PrintDots(n, Seen(k, 0, s))
    decreases n
  {
    hide Seen;
    if n >= 3 {
      Flat(Dots, PrintDots(n - 3, k), 0, s);
      InDots(n - 3, k, s);
    } else if n > 0 {
      Flat(Dot, PrintDots(n - 1, k), 0, s);
      InDots(n - 1, k, s);
    }
  }

  lemma {:induction false} InPath(path: seq<string>, k: Toks, s: Layer)
    ensures Seen(PrintPath(path, k), 0, s) == PrintPath(path, Seen(k, 0, s))
    decreases path
  {
    hide Seen;
    if path != [] {
      var rest := if |path| == 1 then k else Cons(Dot, PrintPath(path[1..], k));
      Flat(Nm(Ident(path[0])), rest, 0, s);
      if |path| > 1 {
        Flat(Dot, PrintPath(path[1..], k), 0, s);
        InPath(path[1..], k, s);
      }
    }
  }

  lemma {:induction false} InAliases(names: seq<Alias>, k: Toks, s: Layer)
    ensures Seen(PrintAliases(names, k), 0, s) == PrintAliases(names, Seen(k, 0, s))
    decreases names
  {
    hide Seen, PrintPath;
    if names != [] {
      var rest := if |names| == 1 then k else Cons(Comma, PrintAliases(names[1..], k));
      var a := names[0];
      if a.asname.Some? {
        var id := Nm(Ident(a.asname.value));
        Flat(Nm(KwAs), Cons(id, rest), 0, s);
        Flat(id, rest, 0, s);
        InPath(a.path, Cons(Nm(KwAs), Cons(id, rest)), s);
      } else {
        InPath(a.path, rest, s);
      }
      if |names| > 1 {
        Flat(Comma, PrintAliases(names[1..], k), 0, s);
        InAliases(names[1..], k, s);
      }
    }
  }

  lemma {:induction false} InIds(ids: seq<string>, k: Toks, s: Layer)
    ensures Seen(PrintIds(ids, k), 0, s) == PrintIds(ids, Seen(k, 0, s))
    decreases ids
  {
    hide Seen;
    if ids != [] {
      Flat(Nm(Ident(ids[0])), if |ids| == 1 then k else Cons(Comma, PrintIds(ids[1..], k)), 0, s);
      if |ids| > 1 {
        Flat(Comma, PrintIds(ids[1..], k), 0, s);
        InIds(ids[1..], k, s);
      }
    }
  }

  lemma {:induction false} InAnn(st: Stmt, k: Toks, s: Layer)
    requires st.AnnStmt?
    ensures Seen(PrintSimple(st, k), 0, s) == PrintSimple(st, Seen(k, 0, s))
  {
    hide Seen, Print;
    var w := if st.init.Some? then Cons(Assign, Print(st.init.value, 1, k)) else k;
    var k' := Cons(Colon, Print(st.ann, 1, w));
    if st.init.Some? {
      Flat(Assign, Print(st.init.value, 1, k), 0, s);
      InPrint(st.init.value, 1, k, 0, s);
    }
    InPrint(st.ann, 1, w, 0, s);
    Flat(Colon, Print(st.ann, 1, w), 0, s);
    if st.simple {
      InPrint(st.starget, 1, k', 0, s);
    } else {
      Open(LPar, Print(st.starget, 1, Cons(RPar, k')), 0, s);
      InPrint(st.starget, 1, Cons(RPar, k'), 1, s);
      Shut(RPar, k', 0, s);
    }
  }

  /** What only looks at the statement it is in sees no further: a simple statement printed before two
      texts gives the same line. */
  lemma OwnLine(st: Stmt, k: Toks)
    requires Simple(st) && SimpleEnd(k)
    ensures Cut(PrintSimple(st, k), 0) == PrintSimple(st, Cons(Newline, End))
  {
    hide PrintSimple;
    InSimple(st, k, FirstSimple);
  }

  // ----- inside a bracket -----

  function ExitTimes(n: nat, t: Toks): Toks {
    if n == 0 then t else ExitTimes(n - 1, Exit(t))
  }

  /** A text that its own graft leaves alone is one that `after` follows. */
  lemma {:induction false} GraftIsExit(t: Toks, d: nat, after: Toks)
    requires Grafted(t, d, after) == t
    ensures ExitTimes(d + 1, t) == after
    decreases t
  {
    hide Exit;
    ExitStep(t);
    if Closes(t.hd) && d == 0 {
      assert ExitTimes(1, t) == ExitTimes(0, Exit(t));
    } else {
      GraftIsExit(t.tl, Depth(d, t.hd), after);
      if Opens(t.hd) {
        assert ExitTimes(d + 2, t.tl) == ExitTimes(d + 1, Exit(t.tl)) == ExitTimes(d, Exit(Exit(t.tl)));
      }
    }
  }

  lemma ExitStep(t: Toks)
    requires t.Cons?
    ensures Exit(t) == if Closes(t.hd) then Rest(t) else if Opens(t.hd) then Exit(Exit(Rest(t))) else Exit(Rest(t))
  {
  }

  /** The bracket that a printed list leaves open is the one after it. */
  lemma ListExit(es: seq<Expr>, k: Toks)
    ensures Exit(PrintJoin(Comma, es, P_TEST, Cons(RBrk, k))) == k
  {
    hide PrintJoin, Seen, Exit;
    var t := PrintJoin(Comma, es, P_TEST, Cons(RBrk, k));
    InJoin(Comma, es, P_TEST, Cons(RBrk, k), 0, Graft(k));
    GraftEnd(k);
    GraftM(t, k);
  }

  lemma CompExit(x: Expr, gs: seq<Comprehension>, k: Toks)
    ensures Exit(Print(x, P_TEST, PrintGens(gs, Cons(RBrk, k)))) == k
  {
    hide Print, PrintGens, Seen, Exit;
    var u := PrintGens(gs, Cons(RBrk, k));
    InPrint(x, P_TEST, u, 0, Graft(k));
    InGens(gs, Cons(RBrk, k), 0, Graft(k));
    GraftEnd(k);
    GraftM(Print(x, P_TEST, u), k);
  }

  lemma GraftEnd(k: Toks)
    ensures Seen(Cons(RBrk, k), 0, Graft(k)) == Cons(RBrk, k)
  {
  }

  lemma GraftM(t: Toks, k: Toks)
    requires Seen(t, 0, Graft(k)) == t
    ensures Exit(t) == k
  {
    hide Exit;
    GraftIsExit(t, 0, k);
    assert ExitTimes(1, t) == ExitTimes(0, Exit(t));
  }
}
