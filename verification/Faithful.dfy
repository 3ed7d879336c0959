/** Exactly which expressions survive printing and parsing.

    Faithful names five shapes and asks that none occurs anywhere in the tree:
    a walrus directly as the body or the test of a conditional, an await directly to the left
    of `**`, an empty set, a subscript that is a one-element tuple holding a slice, and a target
    whose attributes and subscripts hang on anything but a name, when its text does not begin with
    a parenthesis. */
module FaithfulTrees {
  import opened Tokens
  import opened Ast
  import opened Unparse
  import opened Grammar
  import opened Reading
  import opened Descent
  import opened RoundTrip

  predicate Faithful(e: Expr)
    decreases e, 2
  {
    match e
    case Name(_) => true
    case Constant(_) => true
    case BoolOp(_, vs) => FaithfulAll(vs)
    case NamedExpr(_, v) => Faithful(v)
    case BinOp(op, l, r) => !(op == Pow && l.Await?) && Faithful(l) && Faithful(r)
    case UnaryOp(_, x) => Faithful(x)
    case Lambda(ps, b) => FaithfulArgs(ps) && Faithful(b)
    case IfExp(t, b, o) => !t.NamedExpr? && !b.NamedExpr? && Faithful(t) && Faithful(b) && Faithful(o)
    case Dict(items) => FaithfulItems(items)
    case Set(es) => es != [] && FaithfulAll(es)
    case ListComp(x, gs) => Faithful(x) && FaithfulGens(gs)
    case SetComp(x, gs) => Faithful(x) && FaithfulGens(gs)
    case DictComp(key, x, gs) => Faithful(key) && Faithful(x) && FaithfulGens(gs)
    case GeneratorExp(x, gs) => Faithful(x) && FaithfulGens(gs)
    case Await(x) => Faithful(x)
    case Yield(v) => FaithfulOpt(v)
    case YieldFrom(x) => Faithful(x)
    case Compare(l, cs) => Faithful(l) && FaithfulComparisons(cs)
    case Call(f, args, kws) => Faithful(f) && FaithfulAll(args) && FaithfulKeywords(kws)
    case Attribute(v, _) => Faithful(v)
    case Subscript(v, s) => Faithful(v) && FaithfulSlice(s)
    case Starred(x) => Faithful(x)
    case ListExpr(es) => FaithfulAll(es)
    case Tuple(es) => FaithfulAll(es)
    case Slice(lo, up, st) => FaithfulOpt(lo) && FaithfulOpt(up) && FaithfulOpt(st)
  }

  predicate FaithfulOpt(o: Option<Expr>)
    decreases o
  {
    o.Some? ==> Faithful(o.value)
  }

  predicate FaithfulAll(es: seq<Expr>)
    decreases es
  {
    es == [] || (Faithful(es[0]) && FaithfulAll(es[1..]))
  }

  predicate FaithfulOpts(os: seq<Option<Expr>>)
    decreases os
  {
    os == [] || (FaithfulOpt(os[0]) && FaithfulOpts(os[1..]))
  }

  predicate FaithfulComparisons(cs: seq<Comparison>)
    decreases cs
  {
    cs == [] || (FaithfulComparison(cs[0]) && FaithfulComparisons(cs[1..]))
  }

  predicate FaithfulComparison(c: Comparison)
    decreases c
  {
    Faithful(c.right)
  }

  predicate FaithfulItems(items: seq<DictItem>)
    decreases items
  {
    items == [] || (FaithfulItem(items[0]) && FaithfulItems(items[1..]))
  }

  predicate FaithfulItem(it: DictItem)
    decreases it
  {
    FaithfulOpt(it.key) && Faithful(it.value)
  }

  predicate FaithfulKeywords(kws: seq<Keyword>)
    decreases kws
  {
    kws == [] || (FaithfulKeyword(kws[0]) && FaithfulKeywords(kws[1..]))
  }

  predicate FaithfulKeyword(kw: Keyword)
    decreases kw
  {
    Faithful(kw.value)
  }

  predicate FaithfulGens(gs: seq<Comprehension>)
    decreases gs
  {
    gs == [] || (FaithfulGen(gs[0]) && FaithfulGens(gs[1..]))
  }

  predicate FaithfulGen(g: Comprehension)
    decreases g
  {
    FaithfulTarget(g.target) && Faithful(g.iter) && FaithfulAll(g.ifs)
  }

  predicate FaithfulTarget(e: Expr)
    decreases e, 5
  {
    if e.Tuple? && |e.telts| >= 2 then FaithfulTargets(e.telts) else FaithfulTargetAtom(e)
  }

  predicate FaithfulTargetAtom(e: Expr)
    decreases e, 4
  {
    match e
    case Starred(x) => FaithfulTargetAtom(x)
    case ListExpr(es) => FaithfulTargets(es)
    case Attribute(_, _) | Subscript(_, _) => if LeadsParen(e) then Faithful(e) else FaithfulChain(e)
    case _ => Faithful(e)
  }

  predicate FaithfulTargets(es: seq<Expr>)
    decreases es
  {
    es == [] || (FaithfulTargetAtom(es[0]) && FaithfulTargets(es[1..]))
  }

  /** Attributes and subscripts of a name. */
  predicate FaithfulChain(e: Expr)
    decreases e, 3
  {
    match e
    case Name(_) => true
    case Attribute(v, _) => FaithfulChain(v)
    case Subscript(v, s) => FaithfulChain(v) && FaithfulSlice(s)
    case _ => false
  }

  predicate FaithfulSlice(s: Expr)
    decreases s, 3
  {
    !(s.Tuple? && |s.telts| == 1 && s.telts[0].Slice?) && Faithful(s)
  }

  predicate FaithfulArgs(a: Arguments)
    decreases a
  {
    FaithfulAll(a.defaults) && FaithfulOpts(a.kwdefaults)
  }

  // ----- Reparse is the identity on exactly these trees -----

  lemma {:induction false} SameOpt(o: Option<Expr>)
    ensures ReOpt(o) == Some(o) <==> FaithfulOpt(o)
    decreases o
  {
    if o.Some? { Same(o.value); }
  }

  lemma {:induction false} SameAll(es: seq<Expr>)
    ensures ReAll(es) == Some(es) <==> FaithfulAll(es)
    decreases es
  {
    hide Reparse, Faithful;
    if es != [] {
      Same(es[0]);
      SameAll(es[1..]);
      assert es == [es[0]] + es[1..];
    }
  }

  lemma {:induction false} SameOpts(os: seq<Option<Expr>>)
    ensures ReOpts(os) == Some(os) <==> FaithfulOpts(os)
    decreases os
  {
    hide ReOpt, FaithfulOpt;
    if os != [] {
      SameOpt(os[0]);
      SameOpts(os[1..]);
      assert os == [os[0]] + os[1..];
    }
  }

  lemma {:induction false} SameComparisons(cs: seq<Comparison>)
    ensures ReComparisons(cs) == Some(cs) <==> FaithfulComparisons(cs)
    decreases cs
  {
    hide Reparse, Faithful;
    if cs != [] {
      SameComparison(cs[0]);
      SameComparisons(cs[1..]);
      assert cs == [cs[0]] + cs[1..];
    }
  }

  lemma {:induction false} SameComparison(c: Comparison)
    ensures ReComparison(c) == Some(c) <==> FaithfulComparison(c)
    decreases c
  {
    hide Reparse, Faithful;
    Same(c.right);
  }

  lemma {:induction false} SameItems(items: seq<DictItem>)
    ensures ReItems(items) == Some(items) <==> FaithfulItems(items)
    decreases items
  {
    hide ReItem, FaithfulItem;
    if items != [] {
      SameItem(items[0]);
      SameItems(items[1..]);
      assert items == [items[0]] + items[1..];
    }
  }

  lemma {:induction false} SameItem(it: DictItem)
    ensures ReItem(it) == Some(it) <==> FaithfulItem(it)
    decreases it
  {
    hide Reparse, Faithful;
    Same(it.value);
    SameOpt(it.key);
  }

  lemma {:induction false} SameKeywords(kws: seq<Keyword>)
    ensures ReKeywords(kws) == Some(kws) <==> FaithfulKeywords(kws)
    decreases kws
  {
    hide ReKeyword, FaithfulKeyword;
    if kws != [] {
      SameKeyword(kws[0]);
      SameKeywords(kws[1..]);
      assert kws == [kws[0]] + kws[1..];
    }
  }

  lemma {:induction false} SameKeyword(kw: Keyword)
    ensures ReKeyword(kw) == Some(kw) <==> FaithfulKeyword(kw)
    decreases kw
  {
    hide Reparse, Faithful;
    Same(kw.value);
  }

  lemma {:induction false} SameGens(gs: seq<Comprehension>)
    ensures ReGens(gs) == Some(gs) <==> FaithfulGens(gs)
    decreases gs
  {
    hide ReGen, FaithfulGen;
    if gs != [] {
      SameGen(gs[0]);
      SameGens(gs[1..]);
      assert gs == [gs[0]] + gs[1..];
    }
  }

  lemma {:induction false} SameGen(g: Comprehension)
    ensures ReGen(g) == Some(g) <==> FaithfulGen(g)
    decreases g
  {
    hide Reparse, Faithful, ReTarget, FaithfulTarget, ReAll, FaithfulAll;
    SameTarget(g.target);
    Same(g.iter);
    SameAll(g.ifs);
  }

  lemma {:induction false} SameTarget(e: Expr)
    ensures ReTarget(e) == Some(e) <==> FaithfulTarget(e)
    decreases e, 6
  {
    hide Reparse, Faithful, ReTargetAtom, FaithfulTargetAtom, ReTargets, FaithfulTargets;
    if e.Tuple? && |e.telts| >= 2 {
      SameTargets(e.telts);
    } else {
      SameTargetAtom(e);
    }
  }

  lemma {:induction false} SameTargetAtom(e: Expr)
    ensures ReTargetAtom(e) == Some(e) <==> FaithfulTargetAtom(e)
    decreases e, 5
  {
    hide Reparse, Faithful, ReChain, FaithfulChain, LeadsParen, ReTargets, FaithfulTargets;
    match e
    case Starred(x) => SameTargetAtom(x);
    case ListExpr(es) => SameTargets(es);
    case Attribute(_, _) =>
      Same(e);
      SameChain(e);
    case Subscript(_, _) =>
      Same(e);
      SameChain(e);
    case _ => Same(e);
  }

  lemma {:induction false} SameTargets(es: seq<Expr>)
    ensures ReTargets(es) == Some(es) <==> FaithfulTargets(es)
    decreases es
  {
    hide ReTargetAtom, FaithfulTargetAtom;
    if es != [] {
      SameTargetAtom(es[0]);
      SameTargets(es[1..]);
      assert es == [es[0]] + es[1..];
    }
  }

  lemma {:induction false} SameChain(e: Expr)
    ensures ReChain(e) == Some(e) <==> FaithfulChain(e)
    decreases e, 4
  {
    hide Reparse, Faithful, ReSlice, FaithfulSlice;
    match e
    case Attribute(v, _) => SameChain(v);
    case Subscript(v, s) =>
      SameChain(v);
      SameSlice(s);
    case _ =>
  }

  lemma {:induction false} SameSlice(s: Expr)
    ensures ReSlice(s) == Some(s) <==> FaithfulSlice(s)
    decreases s, 4
  {
    hide Reparse, Faithful;
    Same(s);
  }

  lemma {:induction false} SameArgs(a: Arguments)
    ensures ReArgs(a) == Some(a) <==> FaithfulArgs(a)
    decreases a
  {
    hide ReAll, ReOpts, FaithfulAll, FaithfulOpts;
    SameAll(a.defaults);
    SameOpts(a.kwdefaults);
  }

  lemma {:induction false} Same(e: Expr)
    ensures Reparse(e) == Some(e) <==> Faithful(e)
    decreases e, 1
  {
    hide Reparse, Faithful;
    if e.BoolOp? || e.NamedExpr? || e.BinOp? || e.UnaryOp? || e.Compare? || e.Await? || e.IfExp? || e.Lambda? {
      SameOperator(e);
    } else if e.Call? || e.Attribute? || e.Subscript? {
      SameTrailer(e);
    } else if e.Slice? || e.Starred? || e.Yield? || e.YieldFrom? {
      SamePhrase(e);
    } else if e.ListComp? || e.SetComp? || e.DictComp? || e.GeneratorExp? {
      SameComp(e);
    } else {
      SameDisplay(e);
    }
  }

  lemma {:induction false} SameOperator(e: Expr)
    requires e.BoolOp? || e.NamedExpr? || e.BinOp? || e.UnaryOp? || e.Compare? || e.Await? || e.IfExp? || e.Lambda?
    ensures Reparse(e) == Some(e) <==> Faithful(e)
    decreases e, 0
  {
    hide ReAll, ReOpts, ReOpt, ReItems, ReGens, ReComparisons, ReKeywords, ReArgs, FaithfulAll, FaithfulOpt,
      FaithfulItems, FaithfulGens, FaithfulComparisons, FaithfulKeywords, FaithfulArgs;
    match e
    case BoolOp(_, vs) => SameAll(vs);
    case NamedExpr(_, v) => Same(v);
    case BinOp(op, l, r) => Same(l); Same(r);
    case UnaryOp(_, x) => Same(x);
    case Compare(l, cs) => Same(l); SameComparisons(cs);
    case Await(x) => Same(x);
    case IfExp(t, b, o) => Same(t); Same(b); Same(o);
    case Lambda(ps, b) => SameArgs(ps); Same(b);
  }

  lemma {:induction false} SameTrailer(e: Expr)
    requires e.Call? || e.Attribute? || e.Subscript?
    ensures Reparse(e) == Some(e) <==> Faithful(e)
    decreases e, 0
  {
    hide ReAll, ReOpts, ReOpt, ReItems, ReGens, ReComparisons, ReKeywords, ReArgs, FaithfulAll, FaithfulOpt,
      FaithfulItems, FaithfulGens, FaithfulComparisons, FaithfulKeywords, FaithfulArgs;
    match e
    case Call(f, args, kws) => Same(f); SameAll(args); SameKeywords(kws);
    case Attribute(v, _) => Same(v);
    case Subscript(v, s) => Same(v); Same(s);
  }

  lemma {:induction false} SamePhrase(e: Expr)
    requires e.Slice? || e.Starred? || e.Yield? || e.YieldFrom?
    ensures Reparse(e) == Some(e) <==> Faithful(e)
    decreases e, 0
  {
    hide ReAll, ReOpts, ReOpt, ReItems, ReGens, ReComparisons, ReKeywords, ReArgs, FaithfulAll, FaithfulOpt,
      FaithfulItems, FaithfulGens, FaithfulComparisons, FaithfulKeywords, FaithfulArgs;
    match e
    case Slice(lo, up, st) => SameOpt(lo); SameOpt(up); SameOpt(st);
    case Starred(x) => Same(x);
    case Yield(v) => SameOpt(v);
    case YieldFrom(x) => Same(x);
  }

  lemma {:induction false} SameDisplay(e: Expr)
    requires e.Name? || e.Constant? || e.Dict? || e.Set? || e.ListExpr? || e.Tuple?
    ensures Reparse(e) == Some(e) <==> Faithful(e)
    decreases e, 0
  {
    hide ReAll, ReOpts, ReOpt, ReItems, ReGens, ReComparisons, ReKeywords, ReArgs, FaithfulAll, FaithfulOpt,
      FaithfulItems, FaithfulGens, FaithfulComparisons, FaithfulKeywords, FaithfulArgs;
    match e
    case Name(_) =>
    case Constant(_) =>
    case Dict(items) => SameItems(items);
    case Set(es) => SameAll(es);
    case ListExpr(es) => SameAll(es);
    case Tuple(es) => SameAll(es);
  }

  lemma {:induction false} SameComp(e: Expr)
    requires e.ListComp? || e.SetComp? || e.DictComp? || e.GeneratorExp?
    ensures Reparse(e) == Some(e) <==> Faithful(e)
    decreases e, 0
  {
    hide ReAll, ReOpts, ReOpt, ReItems, ReGens, ReComparisons, ReKeywords, ReArgs, FaithfulAll, FaithfulOpt,
      FaithfulItems, FaithfulGens, FaithfulComparisons, FaithfulKeywords, FaithfulArgs;
    match e
    case ListComp(x, gs) => Same(x); SameGens(gs);
    case SetComp(x, gs) => Same(x); SameGens(gs);
    case DictComp(key, x, gs) => Same(key); Same(x); SameGens(gs);
    case GeneratorExp(x, gs) => Same(x); SameGens(gs);
  }

  /** The round trip holds of exactly the faithful trees. */
  lemma RoundTripExactly(e: Expr)
    requires Wf(e)
    ensures ParseExpression(Print(e, P_TEST, End)) == Some(e) <==> Faithful(e)
  {
    hide Print, Reparse, Faithful, ParseExpression;
    UnparseParse(e);
    Same(e);
  }

  /** The same at every level of the ladder, with anything after the expression that cannot
      extend that level: exactly e is read, and exactly what followed is left. */
  lemma RoundTripAt(e: Expr, p: int, L: int, k: Toks)
    requires Wf(e) && Readable(e, p, L)
    requires Binds(k) < L
    ensures ParseAt(L, Print(e, p, k)) == Ok(e, k) <==> Faithful(e)
  {
    hide Print, Reparse, Faithful, ParseAt;
    PrintThenParse(e, p, L, k);
    Same(e);
    if Reparse(e).Some? {
      hide Cont;
      Stops(L, Reparse(e).value, k);
    } else {
      ContErr(L);
    }
  }

  /** Two different faithful trees never print alike. */
  lemma PrintInjective(e1: Expr, e2: Expr)
    requires Wf(e1) && Wf(e2) && Faithful(e1) && Faithful(e2)
    requires Print(e1, P_TEST, End) == Print(e2, P_TEST, End)
    ensures e1 == e2
  {
    hide Print, Faithful, ParseExpression;
    RoundTripExactly(e1);
    RoundTripExactly(e2);
  }

  // ----- one input for each excluded shape -----

  /** `(x := y) if c else d` is printed without its parentheses and comes back as
      `x := (y if c else d)`. */
  lemma WalrusBodyChanges()
    ensures var e := IfExp(Name("c"), NamedExpr(Name("x"), Name("y")), Name("d"));
            ParseExpression(Print(e, P_TEST, End)) ==
            Some(NamedExpr(Name("x"), IfExp(Name("c"), Name("y"), Name("d"))))
  {
    hide ParseExpression, Print;
    UnparseParse(IfExp(Name("c"), NamedExpr(Name("x"), Name("y")), Name("d")));
  }

  /** `y if (x := c) else d` is printed as text the parser rejects. */
  lemma WalrusTestRejected()
    ensures ParseExpression(Print(IfExp(NamedExpr(Name("x"), Name("c")), Name("y"), Name("d")), P_TEST, End)) == None
  {
    hide ParseExpression, Print;
    UnparseParse(IfExp(NamedExpr(Name("x"), Name("c")), Name("y"), Name("d")));
  }

  /** `(await a) ** b` comes back as `await (a ** b)`. */
  lemma AwaitPowerChanges()
    ensures ParseExpression(Print(BinOp(Pow, Await(Name("a")), Name("b")), P_TEST, End)) ==
            Some(Await(BinOp(Pow, Name("a"), Name("b"))))
  {
    hide ParseExpression, Print;
    UnparseParse(BinOp(Pow, Await(Name("a")), Name("b")));
  }

  /** The tree `[y for target in z]`. */
  function Over(target: Expr): Expr {
    ListComp(Name("y"), [Comprehension(target, Name("z"), [], false)])
  }

  lemma OverTarget(target: Expr)
    requires WfTarget(target)
    ensures var r := ParseExpression(Print(Over(target), P_TEST, End));
            r == match ReTarget(target) case None => None case Some(t) => Some(Over(t))
  {
    hide Print, ParseExpression, Wf, Reparse;
    OverWf(target);
    OverBack(target);
    UnparseParse(Over(target));
  }

  lemma OverWf(target: Expr)
    requires WfTarget(target)
    ensures Wf(Over(target))
  {
    hide WfTarget;
    var gs := [Comprehension(target, Name("z"), [], false)];
    assert gs[1..] == [] && WfGens([]) && WfAll([]) && WfGen(gs[0]);
    assert WfGens(gs);
  }

  lemma OverBack(target: Expr)
    ensures Reparse(Over(target)) == match ReTarget(target) case None => None case Some(t) => Some(Over(t))
  {
    hide ReTarget;
    var g := Comprehension(target, Name("z"), [], false);
    assert [g][1..] == [];
    assert ReAll([]) == Some([]) && ReGens([]) == Some([]) && Reparse(Name("z")) == Some(Name("z"));
    assert ReGen(g) == match ReTarget(target) case None => None case Some(t) => Some(Comprehension(t, Name("z"), [],
      false));
    if ReGen(g).Some? {
      assert [ReGen(g).value] + [] == [ReGen(g).value];
      assert ReGens([g]) == Some([ReGen(g).value]);
    }
  }

  /** `[y for f().x in z]` is printed as it is and rejected by the target parser. */
  lemma CallTargetRejected()
    ensures ParseExpression(Print(Over(Attribute(Call(Name("f"), [], []), "x")), P_TEST, End)) == None
  {
    hide Print, ParseExpression, Over;
    OverTarget(Attribute(Call(Name("f"), [], []), "x"));
  }

  /** `[y for None.x in z]` comes back with a name in place of the constant. */
  lemma WordTargetChanges()
    ensures ParseExpression(Print(Over(Attribute(Constant(CNone), "x")), P_TEST, End)) ==
      Some(Over(Attribute(Name("None"), "x")))
  {
    hide Print, ParseExpression, Over;
    OverTarget(Attribute(Constant(CNone), "x"));
  }

  /** `[y for (a + b).x in z]` survives, for its target begins with a parenthesis. */
  lemma ParenTargetSurvives()
    ensures var e := Over(Attribute(BinOp(Add, Name("a"), Name("b")), "x"));
            ParseExpression(Print(e, P_TEST, End)) == Some(e)
  {
    hide Print, ParseExpression, Over;
    OverTarget(Attribute(BinOp(Add, Name("a"), Name("b")), "x"));
  }
}
