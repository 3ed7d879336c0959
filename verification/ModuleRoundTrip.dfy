/** The block-structure round trip: from a module to its text, through the layout layer and the
    statement parser, and back. */
module ModuleRoundTrip {
  import opened Tokens
  import opened Ast
  import opened Unparse
  import opened Layout
  import opened Reading
  import opened StmtGrammar
  import opened UnparseStmt
  import opened StmtReading
  import opened StmtRoundTrip
  import opened BlockLayout
  import opened FaithfulTrees

  /** The text of a module. */
  function Source(b: seq<Stmt>): Toks {
    PrintBody(true, b, 0, End)
  }

  /** Printing a module of well-formed statements and reading the text back gives ReBody(b). */
  lemma PrintThenParseModule(b: seq<Stmt>)
    requires WfBody(b)
    ensures ParseModule(Logical(Source(b))) == ReBody(b)
  {
    hide PrintBody, Logical, ReBody, ModuleTail, WfBody;
    ModuleLayout(b);
    ReadModule(b);
  }

  // ----- when the module itself comes back -----

  /** Every block has a statement, every expression is read back as it is, the parser takes the
      targets, an annotated name stands without parentheses, and no line of a simple statement looks
      like the start of a match statement or a type alias. */
  predicate FaithfulBody(b: seq<Stmt>)
    decreases b, 1
  {
    b == [] || (FaithfulStmt(b[0]) && FaithfulBody(b[1..]))
  }

  predicate FaithfulSuite(b: seq<Stmt>)
    decreases b, 2
  {
    b != [] && FaithfulBody(b)
  }

  predicate FaithfulSimple(s: Stmt)
    requires Simple(s)
  {
    match s
    case Pass | Break | Continue => true
    case ExprStmt(e) => Faithful(e)
    case Return(o) => FaithfulOpt(o)
    case AssignStmt(ts, v) => FaithfulAll(ts) && Faithful(v) && ValidTargets(ts)
    case AugStmt(t, _, v) => Faithful(t) && Faithful(v) && ValidTarget(t)
    case AnnStmt(t, ann, v, simple) =>
      Faithful(t) && Faithful(ann) && FaithfulOpt(v) && ValidTarget(t) && simple == t.Name?
    case Del(es) => FaithfulAll(es) && ValidTargets(es)
    case Assert(e, m) => Faithful(e) && FaithfulOpt(m)
    case Raise(e, c) => FaithfulOpt(e) && FaithfulOpt(c)
    case Import(_) | ImportFrom(_, _, _) | Declare(_, _) => true
  }

  predicate FaithfulStmt(s: Stmt)
    decreases s, 1
  {
    match s
    case If(test, b, o) => Faithful(test) && FaithfulSuite(b) && FaithfulBody(o)
    case While(test, b, o) => Faithful(test) && FaithfulSuite(b) && FaithfulBody(o)
    case For(_, t, i, b, o) => FaithfulTarget(t) && Faithful(i) && FaithfulSuite(b) && FaithfulBody(o)
    case Try(_, b, hs, o, f) => FaithfulSuite(b) && FaithfulHandlers(hs) && FaithfulBody(o) && FaithfulBody(f)
    case FunctionDef(_, ds, _, ps, r, b) => FaithfulAll(ds) && FaithfulParams(ps) && FaithfulOpt(r) && FaithfulSuite(b)
    case ClassDef(ds, _, bs, kws, b) => FaithfulAll(ds) && FaithfulAll(bs) && FaithfulKeywords(kws) && FaithfulSuite(b)
    case _ => !SoftStart(s) && FaithfulSimple(s)
  }

  predicate FaithfulHandlers(hs: seq<Handler>)
    decreases hs
  {
    hs == [] || (FaithfulHandler(hs[0]) && FaithfulHandlers(hs[1..]))
  }

  predicate FaithfulHandler(h: Handler)
    decreases h
  {
    FaithfulOpt(h.typ) && FaithfulSuite(h.body)
  }

  predicate FaithfulParams(a: Arguments) {
    && FaithfulParamList(a.posonly) && FaithfulParamList(a.args) && FaithfulParamList(a.kwonly)
    && (a.vararg.Some? ==> FaithfulOpt(a.vararg.value.ann)) && (a.kwarg.Some? ==> FaithfulOpt(a.kwarg.value.ann))
    && FaithfulAll(a.defaults) && FaithfulOpts(a.kwdefaults)
  }

  predicate FaithfulParamList(ps: seq<Param>) {
    ps == [] || (FaithfulOpt(ps[0].ann) && FaithfulParamList(ps[1..]))
  }

  lemma {:induction false} SameBody(b: seq<Stmt>)
    ensures ReBody(b) == Some(b) <==> FaithfulBody(b)
    decreases b, 1
  {
    hide ReStmt, FaithfulStmt;
    ReBodyCons(b);
    if b != [] {
      SameStmt(b[0]);
      SameBody(b[1..]);
      assert b == [b[0]] + b[1..];
    }
  }

  lemma {:induction false} SameSuite(b: seq<Stmt>)
    ensures ReSuite(b) == Some(b) <==> FaithfulSuite(b)
    decreases b, 2
  {
    hide ReBody, FaithfulBody;
    if b != [] {
      SameBody(b);
    }
  }

  lemma {:induction false} SameHandlers(hs: seq<Handler>)
    ensures ReHandlers(hs) == Some(hs) <==> FaithfulHandlers(hs)
    decreases hs
  {
    hide ReHandler, FaithfulHandler;
    ReHandlersCons(hs);
    if hs != [] {
      SameHandler(hs[0]);
      SameHandlers(hs[1..]);
      assert hs == [hs[0]] + hs[1..];
    }
  }

  lemma {:induction false} SameHandler(h: Handler)
    ensures ReHandler(h) == Some(h) <==> FaithfulHandler(h)
    decreases h
  {
    hide ReOpt, FaithfulOpt, ReSuite, FaithfulSuite;
    SameOpt(h.typ);
    SameSuite(h.body);
  }

  lemma {:induction false} SameParamList(ps: seq<Param>)
    ensures ReParamList(ps) == Some(ps) <==> FaithfulParamList(ps)
    decreases ps
  {
    hide ReOpt, FaithfulOpt;
    if ps != [] {
      SameOpt(ps[0].ann);
      SameParamList(ps[1..]);
      assert ps == [ps[0]] + ps[1..];
    }
  }

  lemma {:induction false} SameParamOpt(o: Option<Param>)
    ensures ReParamOpt(o) == Some(o) <==> (o.Some? ==> FaithfulOpt(o.value.ann))
  {
    hide ReOpt, FaithfulOpt;
    if o.Some? {
      SameOpt(o.value.ann);
    }
  }

  lemma {:induction false} SameParams(a: Arguments)
    ensures ReParams(a) == Some(a) <==> FaithfulParams(a)
  {
    hide ReParamList, FaithfulParamList, ReParamOpt, FaithfulOpt, ReAll, FaithfulAll, ReOpts, FaithfulOpts;
    SameParamList(a.posonly);
    SameParamList(a.args);
    SameParamList(a.kwonly);
    SameParamOpt(a.vararg);
    SameParamOpt(a.kwarg);
    SameAll(a.defaults);
    SameOpts(a.kwdefaults);
  }

  lemma {:induction false} SameSimple(s: Stmt)
    requires Simple(s)
    ensures ReSimple(s) == Some(s) <==> FaithfulSimple(s)
  {
    hide Reparse, Faithful, ReOpt, FaithfulOpt, ReAll, FaithfulAll, ValidTarget, ValidTargets;
    match s
    case Pass | Break | Continue =>
    case ExprStmt(e) => Same(e);
    case Return(o) => SameOpt(o);
    case AssignStmt(ts, v) =>
      SameAll(ts);
      Same(v);
    case AugStmt(t, _, v) =>
      Same(t);
      Same(v);
    case AnnStmt(t, ann, v, _) =>
      Same(t);
      Same(ann);
      SameOpt(v);
    case Del(es) => SameAll(es);
    case Assert(e, m) =>
      Same(e);
      SameOpt(m);
    case Raise(e, c) =>
      SameOpt(e);
      SameOpt(c);
    case Import(_) | ImportFrom(_, _, _) | Declare(_, _) =>
  }

  lemma {:induction false} SameStmt(s: Stmt)
    ensures ReStmt(s) == Some(s) <==> FaithfulStmt(s)
    decreases s, 1
  {
    hide Reparse, Faithful, ReTarget, FaithfulTarget, ReOpt, FaithfulOpt, ReAll, FaithfulAll, ReBody, FaithfulBody,
      ReSuite, FaithfulSuite, ReHandlers, FaithfulHandlers, ReParams, FaithfulParams, ReKeywords, FaithfulKeywords,
      ReSimple, FaithfulSimple, SoftStart;
    match s
    case If(test, b, o) =>
      Same(test);
      SameSuite(b);
      SameBody(o);
    case While(test, b, o) =>
      Same(test);
      SameSuite(b);
      SameBody(o);
    case For(_, t, i, b, o) =>
      SameTarget(t);
      Same(i);
      SameSuite(b);
      SameBody(o);
    case Try(_, b, hs, o, f) =>
      SameSuite(b);
      SameHandlers(hs);
      SameBody(o);
      SameBody(f);
    case FunctionDef(_, ds, _, ps, r, b) =>
      SameAll(ds);
      SameParams(ps);
      SameOpt(r);
      SameSuite(b);
    case ClassDef(ds, _, bs, kws, b) =>
      SameAll(ds);
      SameAll(bs);
      SameKeywords(kws);
      SameSuite(b);
    case _ => SameSimple(s);
  }

  /** The round trip of a module is exact precisely on the faithful modules; `elif` and
      `else: if` are one tree and one text. */
  lemma ModuleRoundTripExactly(b: seq<Stmt>)
    requires WfBody(b)
    ensures ParseModule(Logical(Source(b))) == Some(b) <==> FaithfulBody(b)
  {
    hide Source, Logical, ParseModule, ReBody, FaithfulBody, WfBody;
    PrintThenParseModule(b);
    SameBody(b);
  }

  /** Faithful modules with the same text are the same module. */
  lemma SourceInjective(a: seq<Stmt>, b: seq<Stmt>)
    requires WfBody(a) && WfBody(b) && FaithfulBody(a) && FaithfulBody(b)
    requires Source(a) == Source(b)
    ensures a == b
  {
    hide Source, Logical, ParseModule, FaithfulBody, WfBody;
    ModuleRoundTripExactly(a);
    ModuleRoundTripExactly(b);
  }

  /** `match - 1` as a statement is taken for a match statement. */
  lemma MatchMinus()
    ensures var s := ExprStmt(BinOp(Sub, Name("match"), Constant(CInt("1"))));
            && WfBody([s]) && SoftStart(s)
            && MatchStart(Logical(Source([s]))) && ParseModule(Logical(Source([s]))) == None
  {
    hide Source, Logical, MatchStart, PrintTop, Print, ParseModule;
    var s := ExprStmt(BinOp(Sub, Name("match"), Constant(CInt("1"))));
    MatchTokens(Cons(Newline, End));
    OneLineSource(s);
    MatchLogical();
    assert WfStmt(s) && [s][1..] == [];
    PrintThenParseModule([s]);
    ReBodyCons([s]);
  }

  /** A name that begins a line may well be `match` or `type`: `match = e` is an assignment. */
  lemma MatchNamed(x: string, v: Expr)
    requires x == "match" || x == "type"
    ensures !SoftStart(AssignStmt([Name(x)], v))
  {
    hide Print;
    var rest := Cons(Assign, Print(v, P_TUPLE, Cons(Newline, End)));
    assert [Name(x)][1..] == [];
    assert PrintTargets([], rest.tl) == rest.tl;
    assert PrintSimple(AssignStmt([Name(x)], v), Cons(Newline, End)) == Print(Name(x), P_TUPLE, rest);
    NamePrinted(x, rest);
  }

  lemma NamePrinted(x: string, k: Toks)
    ensures Print(Name(x), P_TUPLE, k) == Cons(Nm(Ident(x)), k)
  {
  }

  lemma MatchLogical()
    ensures var t := Cons(Nm(Ident("match")), Cons(Minus, Cons(IntLit("1"), Cons(Newline, End))));
            MatchStart(t) && MatchStart(Logical(t))
  {
  }

  /** The source of a module of one expression statement. */
  lemma OneLineSource(s: Stmt)
    requires s.ExprStmt?
    ensures Source([s]) == PrintTop(s.value, Cons(Newline, End))
  {
    hide PrintTop;
    assert [s][1..] == [];
    assert PrintBody(true, [s], 0, End) == PrintStmt(true, s, 0, PrintBody(true, [], 0, End));
    assert PrintStmt(true, s, 0, End) == Lead(true, 0, PrintTop(s.value, Cons(Newline, End)));
  }

  lemma MatchTokens(k: Toks)
    ensures var e := BinOp(Sub, Name("match"), Constant(CInt("1")));
            PrintTop(e, k) == Print(e, 0, k) == Cons(Nm(Ident("match")), Cons(Minus, Cons(IntLit("1"), k)))
  {
    var e := BinOp(Sub, Name("match"), Constant(CInt("1")));
    var u := Print(Constant(CInt("1")), 12, k);
    assert u == Bare(Constant(CInt("1")), k) == Cons(IntLit("1"), k);
    assert Print(e, 0, k) == Bare(e, k) == Print(Name("match"), 11, Cons(Minus, u));
    assert Print(Name("match"), 11, Cons(Minus, u)) == Bare(Name("match"), Cons(Minus, u));
  }
}
