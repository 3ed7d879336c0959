/** The legacy front end (legacy/parser/grammar_expr.go with ast/emit.go) against the v2 parser
    (parser/parser.go), on whole expressions: whatever the v2 parser reads, the legacy grammar reads to the
    same token, and the parts that it collects are those of which the v2 parser makes its tree. */
module FrontEnds {
  import opened Tokens
  import opened Ast
  import G = Grammar
  import opened Consumption
  import opened LegacyGrammar
  import opened LegacyEmit


  // ----- what is the same -----

  predicate SameExpr(r: G.Res<Expression>, g: G.Res<Expr>) {
    match g
    case Err => true
    case Ok(e, k) => match r { case Err => false case Ok(x, k') => k' == k && Emit(V2, x) == e }
  }

  predicate SameOr(r: G.Res<Disjunction>, g: G.Res<Expr>) {
    match g
    case Err => true
    case Ok(e, k) => match r { case Err => false case Ok(x, k') => k' == k && EmitDisjunction(V2, x) == e }
  }

  predicate SameOrs(r: (seq<Conjunction>, Toks), g: G.Res<seq<Expr>>) {
    match g case Err => true case Ok(es, k) => r.1 == k && Conjunctions(V2, r.0) == es
  }

  predicate SameAnd(r: G.Res<Conjunction>, g: G.Res<Expr>) {
    match g
    case Err => true
    case Ok(e, k) => match r { case Err => false case Ok(x, k') => k' == k && EmitConjunction(V2, x) == e }
  }

  predicate SameAnds(r: (seq<Inversion>, Toks), g: G.Res<seq<Expr>>) {
    match g case Err => true case Ok(es, k) => r.1 == k && Inversions(V2, r.0) == es
  }

  predicate SameNot(r: G.Res<Inversion>, g: G.Res<Expr>) {
    match g
    case Err => true
    case Ok(e, k) => match r { case Err => false case Ok(x, k') => k' == k && EmitInversion(V2, x) == e }
  }

  predicate SameRights(r: (seq<CmpRight>, Toks), g: G.Res<seq<Comparison>>) {
    match g case Err => true case Ok(cs, k) => r.1 == k && Rights(V2, r.0) == cs && |r.0| == |cs|
  }

  predicate SameNode(r: G.Res<Node>, g: G.Res<Expr>) {
    match g
    case Err => true
    case Ok(e, k) => match r { case Err => false case Ok(x, k') => k' == k && EmitNode(V2, x) == e }
  }

  predicate SameLinks(cur: Expr, r: (seq<Link>, Toks), g: G.Res<Expr>) {
    match g case Err => true case Ok(e, k) => r.1 == k && Fold(V2, cur, r.0) == e
  }

  lemma Next(t: Toks)
    requires t.Cons? && Shared(t)
    ensures Shared(Rest(t)) && !Apart(t.hd, Rest(t))
  {
  }

  // ----- the ladder -----

  /** An expression is named if an ordinary name and `:=` begin it. */
  lemma NamedAt(t: Toks)
    requires Shared(t)
    ensures AtPlainName(t) && At0(Rest(t), Walrus) ==>
              match ReadExpression(Rest(Rest(t)))
              case Err => ReadNamed(t) == G.Err
              case Ok(e, k) => ReadNamed(t) == G.Ok(Named(t.hd.w, e), k)
    ensures !(AtPlainName(t) && At0(Rest(t), Walrus)) ==> ReadNamed(t) == G.Err
  {
    hide ReadExpression, StarredKey, WordTargets;
  }

  lemma {:induction false} ExprAgrees(t: Toks)
    requires Shared(t)
    ensures SameExpr(ReadExpression(t), G.ParseExpr(t))
    decreases Len(t), 60
  {
    hide G.ParseYield, G.ParseLambda, G.ParseTernary, ReadYield, ReadLambda, ReadBody, EmitYield, Exit, Shared, Apart,
      ReadNamed;
    NamedAt(t);
    if t.Cons? {
      Next(t);
    }
    if IsKw(t, KwYield) {
      YieldAgrees(t);
    } else if IsKw(t, KwLambda) {
      LambdaAgrees(t);
    } else if AtPlainName(t) && At0(t.tl, Walrus) {
      Next(t.tl);
      assert Len(t) == 1 + Len(t.tl);
      ExprAgrees(t.tl.tl);
    } else {
      NoLambda(t);
      BodyAgrees(t);
    }
  }

  lemma NoLambda(t: Toks)
    requires !IsKw(t, KwLambda)
    ensures ReadLambda(t) == G.Err
  {
  }

  /** The two parts of a conditional after its `if`. */
  function Parting(t: Toks): G.Res<(Expr, Expr)> {
    var (test, r1) :- G.ParseOr(t);
    var (_, r2) :- G.Expect(r1, Nm(KwElse));
    var (o, r3) :- G.ParseExpr(r2);
    G.Ok((test, o), r3)
  }

  predicate SameElse(r: G.Res<Branch>, g: G.Res<(Expr, Expr)>) {
    match g
    case Err => true
    case Ok(p, k) =>
      match r
      case Err => false
      case Ok(b, k') =>
        k' == k && EmitDisjunction(V2, b.test) == p.0 && Emit(V2, b.orelse) == p.1
  }

  lemma {:induction false} BodyAgrees(t: Toks)
    requires Shared(t)
    ensures SameExpr(ReadBody(t), G.ParseTernary(t))
    decreases Len(t), 58
  {
    hide ReadDisjunction, G.ParseOr, ReadBody, ReadElse, G.ParseTernary, Parting, EmitDisjunction, Shared, Apart,
      Exit;
    OrAgrees(t);
    EatOr(t);
    var v := G.ParseOr(t);
    if v.Ok? {
      if IsKw(v.rest, KwIf) {
        Next(v.rest);
        ElseAgrees(v.rest.tl);
      }
      BodyGlue(t);
    } else {
      NoBody(t);
    }
  }

  lemma NoBody(t: Toks)
    requires G.ParseOr(t).Err?
    ensures G.ParseTernary(t).Err?
  {
  }

  lemma BodyGlue(t: Toks)
    requires SameOr(ReadDisjunction(t), G.ParseOr(t))
    requires match G.ParseOr(t)
             case Err => false
             case Ok(_, k) => IsKw(k, KwIf) ==> SameElse(ReadElse(Rest(k)), Parting(Rest(k)))
    ensures SameExpr(ReadBody(t), G.ParseTernary(t))
  {
    hide ReadDisjunction, G.ParseOr, ReadElse, EmitDisjunction, G.ParseExpr;
  }

  lemma {:induction false} ElseAgrees(t: Toks)
    requires Shared(t)
    ensures SameElse(ReadElse(t), Parting(t))
    decreases Len(t), 61
  {
    hide ReadDisjunction, G.ParseOr, ReadExpression, G.ParseExpr, EmitDisjunction, Emit, Shared, Apart, Exit;
    OrAgrees(t);
    EatOr(t);
    var w := G.ParseOr(t);
    if w.Ok? && IsKw(w.rest, KwElse) {
      Next(w.rest);
      ExprAgrees(w.rest.tl);
    }
  }

  lemma {:induction false} OrAgrees(t: Toks)
    requires Shared(t)
    ensures SameOr(ReadDisjunction(t), G.ParseOr(t))
    decreases Len(t), 56
  {
    hide ReadConjunction, G.ParseAnd, OrLinks, G.OrTail, EmitConjunction, Shared, Apart, Exit;
    AndAgrees(t);
    EatAnd(t);
    var v := G.ParseAnd(t);
    if v.Ok? {
      OrLinksAgree(v.rest);
      NoOr(v.rest);
    }
  }

  lemma NoOr(t: Toks)
    ensures !IsKw(t, KwOr) ==> OrLinks(t) == ([], t)
    ensures IsKw(t, KwOr) ==>
              match G.OrTail(t) case Err => true case Ok(_, k) => OrLinks(t).1 == k ==> OrLinks(t).0 != []
  {
    hide ReadConjunction, G.ParseAnd;
    if IsKw(t, KwOr) && G.OrTail(t).Ok? && OrLinks(t).0 == [] {
      assert OrLinks(t) == ([], t);
      assert Len(G.OrTail(t).rest) < Len(t);
    }
  }

  lemma OrsCons(c: Conjunction, cs: seq<Conjunction>)
    ensures Conjunctions(V2, [c] + cs) == [EmitConjunction(V2, c)] + Conjunctions(V2, cs)
    ensures Conjunctions(V2, []) == []
  {
    hide EmitConjunction;
    assert ([c] + cs)[1..] == cs;
  }

  lemma {:induction false} OrLinksAgree(t: Toks)
    requires Shared(t)
    ensures SameOrs(OrLinks(t), G.OrTail(t))
    decreases Len(t), 54
  {
    hide ReadConjunction, G.ParseAnd, EmitConjunction, Conjunctions, Shared, Apart, Exit;
    if IsKw(t, KwOr) {
      Next(t);
      AndAgrees(t.tl);
      EatAnd(t.tl);
      var v := G.ParseAnd(t.tl);
      if v.Ok? {
        OrLinksAgree(v.rest);
        OrsCons(ReadConjunction(t.tl).v, OrLinks(v.rest).0);
      }
    } else {
      OrsNone();
    }
  }

  lemma OrsNone()
    ensures Conjunctions(V2, []) == [] && Inversions(V2, []) == []
    ensures Rights(V2, []) == []
  {
  }

  lemma {:induction false} AndAgrees(t: Toks)
    requires Shared(t)
    ensures SameAnd(ReadConjunction(t), G.ParseAnd(t))
    decreases Len(t), 52
  {
    hide ReadInversion, G.ParseNot, AndLinks, G.AndTail, EmitInversion, Shared, Apart, Exit;
    NotAgrees(t);
    EatNot(t);
    var v := G.ParseNot(t);
    if v.Ok? {
      AndLinksAgree(v.rest);
      NoAnd(v.rest);
    }
  }

  lemma NoAnd(t: Toks)
    ensures !IsKw(t, KwAnd) ==> AndLinks(t) == ([], t)
    ensures IsKw(t, KwAnd) ==>
              match G.AndTail(t) case Err => true case Ok(_, k) => AndLinks(t).1 == k ==> AndLinks(t).0 != []
  {
    hide ReadInversion, G.ParseNot;
    if IsKw(t, KwAnd) && G.AndTail(t).Ok? && AndLinks(t).0 == [] {
      assert AndLinks(t) == ([], t);
      assert Len(G.AndTail(t).rest) < Len(t);
    }
  }

  lemma AndsCons(c: Inversion, cs: seq<Inversion>)
    ensures Inversions(V2, [c] + cs) == [EmitInversion(V2, c)] + Inversions(V2, cs)
  {
    hide EmitInversion;
    assert ([c] + cs)[1..] == cs;
  }

  lemma {:induction false} AndLinksAgree(t: Toks)
    requires Shared(t)
    ensures SameAnds(AndLinks(t), G.AndTail(t))
    decreases Len(t), 50
  {
    hide ReadInversion, G.ParseNot, EmitInversion, Inversions, Shared, Apart, Exit;
    if IsKw(t, KwAnd) {
      Next(t);
      NotAgrees(t.tl);
      EatNot(t.tl);
      var v := G.ParseNot(t.tl);
      if v.Ok? {
        AndLinksAgree(v.rest);
        AndsCons(ReadInversion(t.tl).v, AndLinks(v.rest).0);
      }
    } else {
      OrsNone();
    }
  }

  lemma {:induction false} NotAgrees(t: Toks)
    requires Shared(t)
    ensures SameNot(ReadInversion(t), G.ParseNot(t))
    decreases Len(t), 48
  {
    hide ReadLevel, G.ParseCompare, G.ParseBin, CmpLinks, EmitChain, Shared, Apart, Exit;
    if IsKw(t, KwNot) {
      Next(t);
      NotAgrees(t.tl);
    } else {
      CompareAgrees(t);
    }
  }

  predicate SameChain(h: G.Res<Node>, g: G.Res<Expr>) {
    match g
    case Err => true
    case Ok(e, k) =>
      match h
      case Err => false
      case Ok(n, u) =>
        var ts := CmpLinks(u);
        ts.1 == k && EmitChain(V2, Chain(n, ts.0)) == e
  }

  lemma {:induction false} CompareAgrees(t: Toks)
    requires Shared(t)
    ensures SameChain(ReadLevel(7, t), G.ParseCompare(t))
    decreases Len(t), 46
  {
    hide ReadLevel, G.ParseBin, G.CompareTail, CmpLinks, EmitNode, Rights, Shared, Apart, Exit;
    BinAgrees(7, t);
    EatBin(7, t);
    var v := G.ParseBin(7, t);
    if v.Ok? {
      RightsAgree(v.rest);
    }
  }

  lemma SameOperator(t: Toks)
    ensures CmpFlags(t).Some? <==> G.CmpAt(t).Some?
    ensures CmpFlags(t).Some? ==>
      var f := CmpFlags(t).value.0;
      G.CmpAt(t).value == (Spelled(f.0, f.1, f.2, f.3), CmpFlags(t).value.1)
  {
  }

  lemma RightsCons(r: CmpRight, rs: seq<CmpRight>)
    ensures Rights(V2, [r] + rs) == [Comparison(OpOf(r), EmitNode(V2, r.rhs))] + Rights(V2, rs)
  {
    hide EmitNode, OpOf;
    assert ([r] + rs)[1..] == rs;
  }

  lemma {:induction false} RightsAgree(t: Toks)
    requires Shared(t)
    ensures SameRights(CmpLinks(t), G.CompareTail(t))
    decreases Len(t), 44
  {
    hide ReadLevel, G.ParseBin, G.CmpAt, CmpFlags, EmitNode, Rights, Spelled, Shared, Apart, Exit;
    SameOperator(t);
    EatCmp(t);
    OrsNone();
    if CmpFlags(t).Some? {
      var (f, u) := CmpFlags(t).value;
      BinAgrees(7, u);
      EatBin(7, u);
      var v := G.ParseBin(7, u);
      if v.Ok? {
        RightsAgree(v.rest);
        RightsCons(CmpRight(f.0, f.1, f.2, f.3, ReadLevel(7, u).v), CmpLinks(v.rest).0);
      }
    }
  }

  lemma FoldCons(cur: Expr, op: Operator, n: Node, ls: seq<Link>)
    ensures Fold(V2, cur, [Link(op, n)] + ls) == Fold(V2, BinOp(op, cur, EmitNode(V2, n)), ls)
  {
    hide EmitNode;
    var ts := [Link(op, n)] + ls;
    assert ts[0] == Link(op, n) && ts[1..] == ls;
  }

  lemma FoldNone(cur: Expr)
    ensures Fold(V2, cur, []) == cur
  {
  }

  lemma {:induction false} LinksAgree(L: int, cur: Expr, t: Toks)
    requires 7 <= L <= 12 && Shared(t)
    ensures SameLinks(cur, LevelLinks(L, t), G.BinTail(L, cur, t))
    decreases Len(t), 40
  {
    hide ReadLevel, G.ParseBin, EmitNode, G.OpAt, Fold, Shared, Apart, Exit;
    FoldNone(cur);
    if t.Cons? && G.OpAt(L, t.hd).Some? {
      var op := G.OpAt(L, t.hd).value;
      Next(t);
      BinAgrees(L + 1, t.tl);
      EatBin(L + 1, t.tl);
      var v := G.ParseBin(L + 1, t.tl);
      if v.Ok? {
        LinksAgree(L, BinOp(op, cur, v.v), v.rest);
        FoldCons(cur, op, ReadLevel(L + 1, t.tl).v, LevelLinks(L, v.rest).0);
      }
    }
  }

  lemma {:induction false} BinAgrees(L: int, t: Toks)
    requires 7 <= L <= 13 && Shared(t)
    ensures SameNode(ReadLevel(L, t), G.ParseBin(L, t))
    decreases Len(t), 42, 13 - L
  {
    hide ReadFactor, G.ParseUnary, LevelLinks, G.BinTail, Fold, Shared, Apart, Exit;
    if L == 13 {
      UnaryAgrees(t);
      assert ReadLevel(13, t) == ReadFactor(t) && G.ParseBin(13, t) == G.ParseUnary(t);
    } else {
      BinAgrees(L + 1, t);
      EatBin(L + 1, t);
      var v := G.ParseBin(L + 1, t);
      if v.Ok? {
        LinksAgree(L, v.v, v.rest);
        LevelGlue(L, t);
      }
    }
  }

  lemma LevelGlue(L: int, t: Toks)
    requires 7 <= L <= 12
    requires SameNode(ReadLevel(L + 1, t), G.ParseBin(L + 1, t))
    requires match G.ParseBin(L + 1, t)
             case Err => true
             case Ok(e, k) => SameLinks(e, LevelLinks(L, k), G.BinTail(L, e, k))
    ensures SameNode(ReadLevel(L, t), G.ParseBin(L, t))
  {
    hide LevelLinks, G.BinTail, Fold;
  }

  lemma {:induction false} UnaryAgrees(t: Toks)
    requires Shared(t)
    ensures SameNode(ReadFactor(t), G.ParseUnary(t))
    decreases Len(t), 38
  {
    hide ReadPower, G.ParsePower, Exit;
    if t.Cons? {
      Next(t);
    }
    if t.Cons? && G.UnaryAt(t.hd).Some? {
      UnaryAgrees(t.tl);
    } else {
      PowerAgrees(t);
    }
  }

  lemma {:induction false} PowerAgrees(t: Toks)
    requires Shared(t)
    ensures SameNode(ReadPower(t), G.ParsePower(t))
    decreases Len(t), 36
  {
    hide ReadPrimary, G.ParseTrailer, ReadFactor, G.ParseUnary, EmitPrimary, Exit, Shared, Apart;
    NotAwait(t);
    PrimaryAgrees(t);
    EatTrailer(t);
    var v := G.ParseTrailer(t);
    if v.Ok? && At0(v.rest, DStar) {
      Next(v.rest);
      UnaryAgrees(v.rest.tl);
    }
  }

  predicate SamePrimary(r: G.Res<Primary>, g: G.Res<Expr>) {
    match g
    case Err => true
    case Ok(e, k) => match r { case Err => false case Ok(x, k') => k' == k && EmitPrimary(V2, x) == e }
  }

  predicate SameTrailers(cur: Expr, r: (seq<Trailer>, Toks), g: G.Res<Expr>) {
    match g case Err => true case Ok(e, k) => r.1 == k && EmitTrailers(V2, cur, r.0) == e
  }

  predicate SameAtom(r: G.Res<Atom>, g: G.Res<Expr>) {
    match g
    case Err => true
    case Ok(e, k) => match r { case Err => false case Ok(x, k') => k' == k && EmitAtom(V2, x) == e }
  }

  predicate SameElem(r: G.Res<Elem>, g: G.Res<Expr>) {
    match g
    case Err => true
    case Ok(e, k) => match r { case Err => false case Ok(x, k') => k' == k && EmitElem(V2, x) == e }
  }

  // ----- tokens that begin no expression -----

  predicate CanStart(x: Tok) {
    x.Nm? || x.IntLit? || x.FloatLit? || x.StrLit? || x.Dots? || x.LBrk? || x.LBrc? || x.LPar?
    || x.Plus? || x.Minus? || x.Tilde?
  }

  predicate Halts(t: Toks) {
    t.Cons? ==> !CanStart(t.hd)
  }

  lemma NoLevel(L: int, t: Toks)
    requires 7 <= L <= 13 && Halts(t)
    ensures ReadLevel(L, t) == G.Err
    decreases 13 - L
  {
    hide LevelLinks, ReadPower;
    if L == 13 {
      NoPower(t);
    } else {
      NoLevel(L + 1, t);
    }
  }

  lemma NoPower(t: Toks)
    requires Halts(t)
    ensures ReadPower(t) == G.Err && ReadFactor(t) == ReadPower(t)
  {
    assert ReadAtom(t) == G.Err;
    hide Trailers;
    assert ReadPrimary(t) == G.Err;
  }

  lemma NoExpr(t: Toks)
    requires Halts(t)
    ensures ReadExpression(t) == G.Err
  {
    hide ReadLevel, OrLinks, AndLinks, CmpLinks, ReadBranch;
    NoLevel(7, t);
    assert ReadInversion(t) == G.Err;
    assert ReadConjunction(t) == G.Err;
    assert ReadDisjunction(t) == G.Err;
    assert ReadBody(t) == G.Err;
    NoLambda(t);
    assert ReadNamed(t) == G.Err;
  }

  /** What closes brackets or separates begins nothing. */
  lemma Nothing(t: Toks)
    requires t.End? || t.hd.RPar? || t.hd.RBrk? || t.hd.RBrc? || t.hd.Comma? || t.hd.Colon? || t.hd.Semi? ||
             t.hd.Newline? || t.hd.Dedent? || t.hd.Assign? || t.hd.AugAssign? || t.hd.Dot?
    ensures ReadExpression(t) == G.Err && ReadElem(t) == G.Err && ReadArgument(t) == G.Err && ReadItem(t) == G.Err
    ensures Maybe(t) == (None, t)
    ensures !At0(t, Colon) ==> ReadSub(t) == G.Err
  {
    NoExpr(t);
    hide ReadExpression;
  }

  // ----- elements -----

  lemma {:induction false} ElemAgrees(t: Toks)
    requires Shared(t)
    ensures SameElem(ReadElem(t), G.ParseStarOrExpr(t))
    decreases Len(t), 62
  {
    hide ReadExpression, G.ParseExpr, Emit, Exit;
    if At0(t, Star) {
      Next(t);
      ExprAgrees(t.tl);
    } else {
      ExprAgrees(t);
    }
  }

  /** Elements after a comma, a comma that may end them, and the tokens after it. */
  function Trailing(t: Toks): Toks {
    if At0(t, Comma) then t.tl else t
  }

  predicate SameElems(r: (seq<Elem>, Toks), g: G.Res<seq<Expr>>) {
    match g case Err => true case Ok(es, k) => Trailing(r.1) == k && EmitElems(V2, r.0) == es
  }

  lemma ElemsCons(e: Elem, es: seq<Elem>)
    ensures EmitElems(V2, [e] + es) == [EmitElem(V2, e)] + EmitElems(V2, es)
    ensures EmitElems(V2, []) == []
  {
    hide EmitElem;
    assert ([e] + es)[1..] == es;
  }

  lemma ElemsNone()
    ensures EmitElems(V2, []) == []
  {
  }

  /** One more element, read by both, and what follows it. */
  lemma ElemsMore(t: Toks, es: seq<Expr>, k: Toks)
    requires At0(t, Comma) && SameElem(ReadElem(Rest(t)), G.ParseStarOrExpr(Rest(t)))
    requires match G.ParseStarOrExpr(Rest(t)) case Err => false case Ok(_, r) => SameElems(MoreElems(r), G.Ok(es, k))
    ensures match G.ParseStarOrExpr(Rest(t))
            case Err => false
            case Ok(e, _) => SameElems(MoreElems(t), G.Ok([e] + es, k))
  {
    hide ReadElem, G.ParseStarOrExpr, EmitElem, EmitElems;
    var e, r := ReadElem(t.tl).v, ReadElem(t.tl).rest;
    ElemsCons(e, MoreElems(r).0);
    assert MoreElems(t) == ([e] + MoreElems(r).0, MoreElems(r).1);
  }

  lemma ElemsEnd(t: Toks)
    ensures At0(t, Comma) && ReadElem(Rest(t)).Err? ==>
              SameElems(MoreElems(t), G.Ok([], Rest(t))) && MoreElems(t) == ([], t)
    ensures !At0(t, Comma) ==> SameElems(MoreElems(t), G.Ok([], t)) && MoreElems(t) == ([], t)
  {
    hide ReadElem;
    ElemsNone();
  }

  lemma {:induction false} TestlistAgrees(t: Toks)
    requires Shared(t)
    ensures SameElems(MoreElems(t), G.TestlistTail(t))
    decreases Len(t), 64
  {
    hide MoreElems, ReadElem, G.ParseStarOrExpr, SameElems, SameElem, Shared, Apart, Exit;
    ElemsEnd(t);
    if At0(t, Comma) {
      if t.tl.End? || G.ListTerminator(t.tl.hd) {
        Nothing(t.tl);
      } else {
        Next(t);
        ElemAgrees(t.tl);
        EatStarOrExpr(t.tl);
        var v := G.ParseStarOrExpr(t.tl);
        if v.Ok? {
          TestlistAgrees(v.rest);
          var w := G.TestlistTail(v.rest);
          if w.Ok? {
            ElemsMore(t, w.v, w.rest);
          } else {
            Fails(MoreElems(t));
          }
        } else {
          Fails(MoreElems(t));
        }
      }
    }
  }

  lemma Fails(r: (seq<Elem>, Toks))
    ensures SameElems(r, G.Err)
  {
  }

  lemma {:induction false} EltsAgree(close: Tok, t: Toks)
    requires Shared(t) && (close == RBrk || close == RBrc)
    ensures SameElems(MoreElems(t), G.EltsTail(close, t))
    decreases Len(t), 64
  {
    hide MoreElems, ReadElem, G.ParseStarOrExpr, SameElems, SameElem, Shared, Apart, Exit;
    ElemsEnd(t);
    if At0(t, Comma) {
      if At0(t.tl, close) {
        Nothing(t.tl);
      } else {
        Next(t);
        ElemAgrees(t.tl);
        EatStarOrExpr(t.tl);
        var v := G.ParseStarOrExpr(t.tl);
        if v.Ok? {
          EltsAgree(close, v.rest);
          var w := G.EltsTail(close, v.rest);
          if w.Ok? {
            ElemsMore(t, w.v, w.rest);
          } else {
            Fails(MoreElems(t));
          }
        } else {
          Fails(MoreElems(t));
        }
      }
    }
  }

  /** Elements of a tuple from their comma on. */
  lemma {:induction false} TupleAgrees(t: Toks)
    requires Shared(t) && At0(t, Comma)
    ensures SameElems(MoreElems(t), G.ParenTail(Rest(t)))
    decreases Len(t), 64
  {
    hide MoreElems, ReadElem, G.ParseStarOrExpr, SameElems, SameElem, Shared, Apart, Exit;
    ElemsEnd(t);
    if At0(t.tl, RPar) {
      Nothing(t.tl);
    } else {
      Next(t);
      ElemAgrees(t.tl);
      EatStarOrExpr(t.tl);
      var v := G.ParseStarOrExpr(t.tl);
      if v.Ok? {
        if At0(v.rest, Comma) {
          TupleAgrees(v.rest);
          var w := G.ParenTail(v.rest.tl);
          if w.Ok? {
            ElemsMore(t, w.v, w.rest);
          } else {
            Fails(MoreElems(t));
          }
        } else {
          ElemsEnd(v.rest);
          ElemsMore(t, [], v.rest);
          assert [v.v] + [] == [v.v];
        }
      } else {
        Fails(MoreElems(t));
      }
    }
  }

  // ----- yield -----

  predicate SameYield(r: (YieldExpr, Toks), g: G.Res<Expr>) {
    match g case Err => true case Ok(e, k) => r.1 == k && EmitYield(V2, r.0) == e
  }

  lemma {:induction false} YieldAgrees(t: Toks)
    requires Shared(t) && IsKw(t, KwYield)
    ensures SameYield(ReadYield(Rest(t)), G.ParseYield(t))
    decreases Len(t), 34
  {
    hide ReadExpression, G.ParseExpr, ReadElem, G.ParseTestlist, MoreElems, EmitElem, EmitElems, Emit, G.ParseYield,
      ReadYield, EmitYield, Shared, Apart, Exit, SameElem;
    Next(t);
    var u := t.tl;
    if IsKw(u, KwFrom) {
      Next(u);
      assert Len(t) == 1 + Len(u);
      ExprAgrees(u.tl);
      YieldFromAgrees(t);
    } else if YieldEnds(u) {
      YieldNothing(t);
    } else {
      ValueAgrees(u);
      YieldValue(t);
    }
  }

  predicate YieldEnds(t: Toks) {
    t.End? || G.YieldTerminator(t.hd)
  }

  lemma YieldFromAgrees(t: Toks)
    requires IsKw(t, KwYield) && IsKw(Rest(t), KwFrom)
    requires SameExpr(ReadExpression(Rest(Rest(t))), G.ParseExpr(Rest(Rest(t))))
    ensures SameYield(ReadYield(Rest(t)), G.ParseYield(t))
  {
    hide ReadExpression, G.ParseExpr, Emit, ReadElem, MoreElems;
  }

  lemma YieldNothing(t: Toks)
    requires IsKw(t, KwYield) && !IsKw(Rest(t), KwFrom) && YieldEnds(Rest(t))
    ensures SameYield(ReadYield(Rest(t)), G.ParseYield(t))
  {
    hide ReadExpression, ReadElem, MoreElems, ReadItem, ReadArgument, ReadSub, Maybe, G.ParseTestlist, G.ParseExpr,
      ReadYield, EmitYield, G.ParseYield;
    Nothing(t.tl);
    NoValue(t.tl);
    assert G.ParseYield(t) == G.Ok(Yield(None), t.tl) by { YieldEmpty(t); }
  }

  lemma NoValue(u: Toks)
    requires ReadElem(u) == G.Err && !IsKw(u, KwFrom)
    ensures ReadYield(u) == (Val(None, [], false), u) && EmitYield(V2, Val(None, [], false)) == Yield(None)
  {
    hide ReadElem, ReadExpression, MoreElems;
  }

  lemma YieldEmpty(t: Toks)
    requires IsKw(t, KwYield) && !IsKw(Rest(t), KwFrom) && YieldEnds(Rest(t))
    ensures G.ParseYield(t) == G.Ok(Yield(None), Rest(t))
  {
    hide G.ParseTestlist, G.ParseExpr;
  }

  lemma YieldValue(t: Toks)
    requires IsKw(t, KwYield) && !IsKw(Rest(t), KwFrom) && !YieldEnds(Rest(t))
    ensures match G.ParseTestlist(Rest(t))
            case Err => G.ParseYield(t) == G.Err
            case Ok(e, k) => G.ParseYield(t) == G.Ok(Yield(Some(e)), k)
  {
    hide G.ParseTestlist;
  }

  /** The values of a yield. */
  lemma {:induction false} ValueAgrees(t: Toks)
    requires Shared(t) && !IsKw(t, KwFrom)
    ensures match G.ParseTestlist(t)
            case Err => true
            case Ok(e, k) => SameYield(ReadYield(t), G.Ok(Yield(Some(e)), k))
    decreases Len(t), 66
  {
    hide ReadElem, G.ParseStarOrExpr, MoreElems, G.TestlistTail, EmitElem, EmitElems, Shared, Apart, Exit, ReadYield,
      G.ParseTestlist, SameYield;
    ElemAgrees(t);
    EatStarOrExpr(t);
    var v := G.ParseStarOrExpr(t);
    if v.Ok? {
      ElemsEnd(v.rest);
      if At0(v.rest, Comma) {
        TestlistAgrees(v.rest);
        ElemsNone();
        ElemsStay(v.rest);
      }
    }
    ValueGlue(t);
  }

  lemma ValueGlue(t: Toks)
    requires !IsKw(t, KwFrom) && SameElem(ReadElem(t), G.ParseStarOrExpr(t))
    requires match G.ParseStarOrExpr(t)
             case Err => true
             case Ok(_, k) =>
               if At0(k, Comma) then
                 SameElems(MoreElems(k), G.TestlistTail(k)) && (MoreElems(k).0 == [] ==> MoreElems(k).1 == k)
               else MoreElems(k) == ([], k)
    ensures match G.ParseTestlist(t)
            case Err => true
            case Ok(e, k) => SameYield(ReadYield(t), G.Ok(Yield(Some(e)), k))
  {
    hide ReadElem, G.ParseStarOrExpr, MoreElems, G.TestlistTail, EmitElem, EmitElems, ReadExpression;
    ElemsNone();
  }

  lemma ElemsStay(t: Toks)
    ensures MoreElems(t).0 == [] ==> MoreElems(t).1 == t
  {
    hide ReadElem;
  }

  // ----- comprehensions -----

  predicate SameComps(r: (seq<CompFor>, Toks), g: G.Res<seq<Comprehension>>) {
    match g case Err => true case Ok(gs, k) => r.1 == k && EmitComps(V2, r.0) == gs
  }

  predicate SameComp(r: G.Res<CompFor>, g: G.Res<Comprehension>) {
    match g
    case Err => true
    case Ok(c, k) => match r { case Err => false case Ok(x, k') => k' == k && EmitComp(V2, x) == c }
  }

  lemma CompsCons(c: CompFor, cs: seq<CompFor>)
    ensures EmitComps(V2, [c] + cs) == [EmitComp(V2, c)] + EmitComps(V2, cs)
    ensures EmitComps(V2, []) == []
  {
    hide EmitComp;
    assert ([c] + cs)[1..] == cs;
  }

  /** Where no clause begins, none is read. */
  lemma NoComps(t: Toks)
    requires !G.CompForStart(t)
    ensures Comps(t) == ([], t)
    ensures SameComps(([], t), G.Ok([], t))
  {
    hide ReadTargets, ReadDisjunction, Ifs;
    assert ReadComp(t) == G.Err;
  }

  lemma SomeComps(t: Toks)
    requires G.CompForStart(t) && G.ParseGens(t).Ok? && SameComps(Comps(t), G.ParseGens(t))
    ensures Comps(t).0 != []
  {
    hide ReadComp, G.ParseGen;
    CompsStay(t);
  }

  lemma CompsStay(t: Toks)
    ensures Comps(t).0 == [] ==> Comps(t).1 == t
  {
    hide ReadComp;
  }

  lemma {:induction false} CompsAgree(t: Toks)
    requires Shared(t)
    ensures SameComps(Comps(t), G.ParseGens(t))
    decreases Len(t), 68
  {
    hide ReadComp, G.ParseGen, EmitComp, EmitComps, Shared, Apart, Exit, G.CompForStart;
    if G.CompForStart(t) {
      CompAgrees(t);
      EatGen(t);
      var v := G.ParseGen(t);
      if v.Ok? {
        CompsAgree(v.rest);
        CompsCons(ReadComp(t).v, Comps(v.rest).0);
      }
    } else {
      NoComps(t);
    }
  }

  predicate SameIfs(r: (seq<Disjunction>, Toks), g: G.Res<seq<Expr>>) {
    match g case Err => true case Ok(es, k) => r.1 == k && EmitIfs(V2, r.0) == es
  }

  lemma IfsCons(d: Disjunction, ds: seq<Disjunction>)
    ensures EmitIfs(V2, [d] + ds) == [EmitDisjunction(V2, d)] + EmitIfs(V2, ds)
    ensures EmitIfs(V2, []) == []
  {
    hide EmitDisjunction;
    assert ([d] + ds)[1..] == ds;
  }

  lemma IfsNone()
    ensures EmitIfs(V2, []) == [] && EmitTargetTail(V2, []) == []
  {
  }

  lemma {:induction false} IfsAgree(t: Toks)
    requires Shared(t)
    ensures SameIfs(Ifs(t), G.IfsTail(t))
    decreases Len(t), 58
  {
    hide ReadDisjunction, G.ParseOr, EmitDisjunction, EmitIfs, Shared, Apart, Exit;
    IfsNone();
    if IsKw(t, KwIf) {
      Next(t);
      OrAgrees(t.tl);
      EatOr(t.tl);
      var v := G.ParseOr(t.tl);
      if v.Ok? {
        IfsAgree(v.rest);
        IfsCons(ReadDisjunction(t.tl).v, Ifs(v.rest).0);
      }
    }
  }

  lemma {:induction false} CompAgrees(t: Toks)
    requires Shared(t) && G.CompForStart(t)
    ensures SameComp(ReadComp(t), G.ParseGen(t))
    decreases Len(t), 67
  {
    hide ReadTargets, G.ParseTargetList, ReadDisjunction, G.ParseOr, Ifs, G.IfsTail, ReadComp, G.ParseGen,
      EmitDisjunction, EmitIfs, EmitTargets, Shared, Apart, Exit;
    PastFor(t);
    AtTargets(t);
    var u := if IsKw(t, KwAsync) then t.tl.tl else t.tl;
    EatTargetList(u);
    var v := G.ParseTargetList(u);
    if v.Ok? && IsKw(v.rest, KwIn) {
      TargetsAgree(u);
      Next(v.rest);
      OrAgrees(v.rest.tl);
      EatOr(v.rest.tl);
      var w := G.ParseOr(v.rest.tl);
      if w.Ok? {
        IfsAgree(w.rest);
      }
      CompGlue(t, u);
    } else {
      NoGen(t, u);
    }
  }

  lemma AtTargets(t: Toks)
    requires Shared(t) && G.CompForStart(t)
    ensures !WordTargets(if IsKw(t, KwAsync) then Rest(Rest(t)) else Rest(t))
  {
    hide WordTargets, StarredKey;
  }

  lemma NoGen(t: Toks, u: Toks)
    requires G.CompForStart(t) && u == (if IsKw(t, KwAsync) then Rest(Rest(t)) else Rest(t))
    requires match G.ParseTargetList(u) case Err => true case Ok(_, k) => !IsKw(k, KwIn)
    ensures G.ParseGen(t) == G.Err
  {
    hide G.ParseTargetList, G.ParseOr, G.IfsTail;
  }

  predicate SameTargets(r: G.Res<TargetList>, g: G.Res<Expr>) {
    match g
    case Err => true
    case Ok(e, k) => match r { case Err => false case Ok(x, k') => k' == k && EmitTargets(V2, x) == e }
  }

  /** A clause from its targets on, as each reads it. */
  function CompFrom(isAsync: bool, u: Toks): G.Res<CompFor> {
    match ReadTargets(u)
    case Err => G.Err
    case Ok(target, k) =>
      if !IsKw(k, KwIn) then G.Err
      else
        match ReadDisjunction(Rest(k))
        case Err => G.Err
        case Ok(iter, m) => G.Ok(CompFor(isAsync, target, iter, Ifs(m).0), Ifs(m).1)
  }

  function GenFrom(isAsync: bool, u: Toks): G.Res<Comprehension> {
    match G.ParseTargetList(u)
    case Err => G.Err
    case Ok(target, k) =>
      if !IsKw(k, KwIn) then G.Err
      else
        match G.ParseOr(Rest(k))
        case Err => G.Err
        case Ok(iter, m) =>
          match G.IfsTail(m)
          case Err => G.Err
          case Ok(ifs, n) => G.Ok(Comprehension(target, iter, ifs, isAsync), n)
  }

  lemma CompAt(t: Toks, u: Toks)
    requires G.CompForStart(t) && u == (if IsKw(t, KwAsync) then Rest(Rest(t)) else Rest(t))
    ensures ReadComp(t) == CompFrom(IsKw(t, KwAsync), u) && G.ParseGen(t) == GenFrom(IsKw(t, KwAsync), u)
  {
    hide ReadTargets, G.ParseTargetList, ReadDisjunction, G.ParseOr, Ifs, G.IfsTail;
  }

  lemma CompGlue(t: Toks, u: Toks)
    requires G.CompForStart(t) && u == (if IsKw(t, KwAsync) then Rest(Rest(t)) else Rest(t))
    requires SameTargets(ReadTargets(u), G.ParseTargetList(u))
    requires match G.ParseTargetList(u)
             case Err => false
             case Ok(_, k) =>
               && IsKw(k, KwIn)
               && SameOr(ReadDisjunction(Rest(k)), G.ParseOr(Rest(k)))
               && match G.ParseOr(Rest(k)) { case Err => true case Ok(_, m) => SameIfs(Ifs(m), G.IfsTail(m)) }
    ensures SameComp(ReadComp(t), G.ParseGen(t))
  {
    hide ReadTargets, G.ParseTargetList, ReadDisjunction, G.ParseOr, Ifs, G.IfsTail, ReadComp, G.ParseGen,
      EmitDisjunction, EmitIfs, EmitTargets;
    CompAt(t, u);
  }

  // ----- targets -----

  predicate SameTarget(r: G.Res<TargetAtom>, g: G.Res<Expr>) {
    match g
    case Err => true
    case Ok(e, k) => match r { case Err => false case Ok(x, k') => k' == k && EmitTarget(V2, x) == e }
  }

  /** What may follow a target. */
  predicate TargetStop(k: Toks) {
    IsKw(k, KwIn) || At0(k, Comma) || At0(k, RBrk)
  }

  /** The v2 target parser's result counts where a target may end, and if it is plain. */
  function Stopped(g: G.Res<Expr>): G.Res<Expr> {
    match g case Err => G.Err case Ok(e, k) => if TargetStop(k) && PlainTarget(e) then g else G.Err
  }

  predicate SameTargetTail(r: (seq<TargetAtom>, Toks), g: G.Res<seq<Expr>>) {
    match g
    case Err => true
    case Ok(es, k) =>
      IsKw(k, KwIn) && PlainTargets(es) ==> Trailing(r.1) == k && EmitTargetTail(V2, r.0) == es
  }

  lemma TargetsCons(a: TargetAtom, l: seq<TargetAtom>)
    ensures EmitTargetTail(V2, [a] + l) == [EmitTarget(V2, a)] + EmitTargetTail(V2, l)
  {
    hide EmitTarget;
    assert ([a] + l)[1..] == l;
  }

  lemma PlainCons(e: Expr, es: seq<Expr>)
    ensures PlainTargets([e] + es) == (PlainTarget(e) && PlainTargets(es)) && PlainTargets([])
  {
    hide PlainTarget;
    assert ([e] + es)[1..] == es;
  }

  lemma {:induction false} TargetsAgree(t: Toks)
    requires Shared(t) && !WordTargets(t)
    requires match G.ParseTargetList(t) case Err => true case Ok(_, k) => IsKw(k, KwIn)
    ensures SameTargets(ReadTargets(t), G.ParseTargetList(t))
    decreases Len(t), 60
  {
    hide ReadTarget, G.ParseTargetAtom, MoreTargets, G.TargetListTail, EmitTarget, EmitTargetTail, Shared, Apart,
      Exit, PlainTargets;
    EatTargetAtom(t);
    var v := G.ParseTargetAtom(t);
    if v.Ok? {
      IfsNone();
      TargetAgrees(t);
      TargetsStay(v.rest);
      if At0(v.rest, Comma) {
        MoreTargetsAgree(v.rest);
        var w := G.TargetListTail(v.rest);
        if w.Ok? {
          PlainCons(v.v, w.v);
        }
      }
    }
  }

  lemma TargetsStay(t: Toks)
    ensures MoreTargets(t).0 == [] ==> MoreTargets(t).1 == t
    ensures !At0(t, Comma) ==> MoreTargets(t) == ([], t)
  {
    hide ReadTarget;
  }

  lemma PlainNone()
    ensures PlainTargets([])
  {
  }

  lemma TargetsStep(t: Toks)
    ensures !At0(t, Comma) || IsKw(Rest(t), KwIn) ==> MoreTargets(t) == ([], t)
    ensures At0(t, Comma) && !IsKw(Rest(t), KwIn) ==>
              match ReadTarget(Rest(t))
              case Err => MoreTargets(t) == ([], t)
              case Ok(a, k) => MoreTargets(t) == ([a] + MoreTargets(k).0, MoreTargets(k).1)
  {
    hide ReadTarget;
  }

  predicate ListEnds(t: Toks) {
    IsKw(t, KwIn) || At0(t, RPar) || At0(t, RBrk) || At0(t, RBrc)
  }

  lemma TargetTailStep(t: Toks)
    ensures !At0(t, Comma) ==> G.TargetListTail(t) == G.Ok([], t)
    ensures At0(t, Comma) && ListEnds(Rest(t)) ==> G.TargetListTail(t) == G.Ok([], Rest(t))
    ensures At0(t, Comma) && !ListEnds(Rest(t)) ==>
              match G.ParseTargetAtom(Rest(t))
              case Err => G.TargetListTail(t) == G.Err
              case Ok(e, k) => G.TargetListTail(t) == Prefixed(e, G.TargetListTail(k))
  {
    hide G.ParseTargetAtom;
  }

  function Prefixed(e: Expr, r: G.Res<seq<Expr>>): G.Res<seq<Expr>> {
    match r case Err => G.Err case Ok(es, k) => G.Ok([e] + es, k)
  }

  lemma {:induction false} MoreTargetsAgree(t: Toks)
    requires Shared(t)
    ensures SameTargetTail(MoreTargets(t), G.TargetListTail(t))
    decreases Len(t), 60
  {
    hide ReadTarget, G.ParseTargetAtom, EmitTarget, EmitTargetTail, Shared, Apart, Exit, PlainTarget, PlainTargets,
      MoreTargets, G.TargetListTail;
    IfsNone();
    TargetsStep(t);
    TargetTailStep(t);
    PlainNone();
    if At0(t, Comma) && !ListEnds(t.tl) {
      Next(t);
      EatTargetAtom(t.tl);
      var v := G.ParseTargetAtom(t.tl);
      if v.Ok? {
        MoreTargetsAgree(v.rest);
        var w := G.TargetListTail(v.rest);
        if w.Ok? && IsKw(w.rest, KwIn) {
          PlainCons(v.v, w.v);
          TailStops(v.rest);
          TargetAgrees(t.tl);
          if ReadTarget(t.tl).Ok? {
            TargetsCons(ReadTarget(t.tl).v, MoreTargets(v.rest).0);
          }
        }
      }
    }
  }

  /** A list of targets that ends at `in` goes on with a comma or ends there. */
  lemma TailStops(t: Toks)
    requires match G.TargetListTail(t) case Err => false case Ok(_, k) => IsKw(k, KwIn)
    ensures TargetStop(t)
  {
    hide G.ParseTargetAtom;
  }

  lemma {:induction false} TargetAgrees(t: Toks)
    requires Shared(t)
    ensures SameTarget(ReadTarget(t), Stopped(G.ParseTargetAtom(t)))
    decreases Len(t), 58
  {
    hide ReadLevel, EmitNode, Exit, G.ParseTargetAtom, Shared, Apart, PlainTarget;
    if At0(t, Star) {
      Next(t);
      StarTarget(t);
      if !At0(t.tl, Star) {
        OperandAgrees(t.tl);
      }
    } else {
      OperandAgrees(t);
    }
  }

  /** A starred target is plain if it is starred once. */
  lemma StarTarget(t: Toks)
    requires At0(t, Star)
    ensures match G.ParseTargetAtom(Rest(t))
            case Err => G.ParseTargetAtom(t) == G.Err
            case Ok(e, k) =>
              && G.ParseTargetAtom(t) == G.Ok(Starred(e), k)
              && (PlainTarget(Starred(e)) ==> !At0(Rest(t), Star) && PlainTarget(e))
  {
    hide G.ParseParenAtom, G.TrailerTail, G.TargetElts, G.TargetTail;
  }

  /** A target without a star is an operand of the ladder. */
  lemma {:induction false} OperandAgrees(t: Toks)
    requires Shared(t) && !At0(t, Star)
    ensures SameNode(ReadLevel(7, t), Stopped(G.ParseTargetAtom(t)))
    decreases Len(t), 56
  {
    hide ReadLevel, ReadPrimary, G.ParseTargetAtom, EmitNode, EmitPrimary, Exit, Shared, PlainTarget;
    TargetPrimaryAgrees(t);
    var g := G.ParseTargetAtom(t);
    if g.Ok? && TargetStop(g.rest) && PlainTarget(g.v) {
      Begins(t);
      Operand(7, t);
      WrapEmits(V2, 7, ReadPrimary(t).v);
    }
  }

  lemma Begins(t: Toks)
    requires Shared(t) && G.ParseTargetAtom(t).Ok? && !At0(t, Star)
    ensures t.Cons? && G.UnaryAt(t.hd).None? && !IsKw(t, KwAwait)
  {
    hide G.ParseParenAtom, G.TrailerTail, G.TargetElts, G.TargetTail, StarredKey, WordTargets;
  }

  /** A primary as an operand at level L. */
  function Wrap(L: int, p: Primary): Node
    requires L <= 13
    decreases 13 - L
  {
    if L == 13 then Power(false, p, None) else Level(Wrap(L + 1, p), [])
  }

  lemma {:induction false} WrapEmits(who: Builder, L: int, p: Primary)
    requires L <= 13
    ensures EmitNode(who, Wrap(L, p)) == EmitPrimary(who, p)
    decreases 13 - L
  {
    hide EmitPrimary;
    if L < 13 {
      WrapEmits(who, L + 1, p);
    }
  }

  /** What closes or separates follows. */
  predicate Quiet(k: Toks) {
    k.End? || k.hd.Comma? || k.hd.RBrk? || k.hd.RPar? || k.hd.RBrc? || k.hd.Colon?
  }

  lemma LinksEnd(L: int, k: Toks)
    requires Quiet(k) || IsKw(k, KwIn)
    ensures LevelLinks(L, k) == ([], k)
  {
  }

  lemma PowerEnds(t: Toks)
    requires !Signed(t) && !IsKw(t, KwAwait)
    requires match ReadPrimary(t) case Err => false case Ok(_, k) => Quiet(k) || IsKw(k, KwIn)
    ensures match ReadPrimary(t) case Err => false case Ok(p, k) => ReadLevel(13, t) == G.Ok(Power(false, p, None), k)
  {
    hide ReadPrimary;
    assert ReadLevel(13, t) == ReadFactor(t) == ReadPower(t);
  }

  lemma {:induction false} Operand(L: int, t: Toks)
    requires 7 <= L <= 13 && t.Cons? && G.UnaryAt(t.hd).None? && !IsKw(t, KwAwait)
    requires match ReadPrimary(t) case Err => false case Ok(_, k) => Quiet(k) || IsKw(k, KwIn)
    ensures match ReadPrimary(t) case Err => false case Ok(p, k) => ReadLevel(L, t) == G.Ok(Wrap(L, p), k)
    decreases 13 - L
  {
    hide ReadPrimary, LevelLinks, ReadFactor, ReadPower;
    var k := ReadPrimary(t).rest;
    if L == 13 {
      PowerEnds(t);
    } else {
      Operand(L + 1, t);
      LinksEnd(L, k);
    }
  }

  lemma {:induction false} TargetPrimaryAgrees(t: Toks)
    requires Shared(t) && !At0(t, Star)
    ensures SamePrimary(ReadPrimary(t), Stopped(G.ParseTargetAtom(t)))
    decreases Len(t), 54
  {
    hide ReadPrimary, G.ParseTargetAtom, EmitPrimary, Exit, Shared, G.ParseTrailer, G.TargetTail, G.TargetElts,
      PlainTarget;
    if At0(t, LPar) {
      PrimaryAgrees(t);
      ParenTarget(t);
    } else if At0(t, LBrk) {
      ListTargetAgrees(t);
    } else if t.Cons? && t.hd.Nm? {
      NameTargetAgrees(t);
    } else {
      NoTarget(t);
    }
  }

  lemma NoTarget(t: Toks)
    requires !At0(t, Star) && !At0(t, LPar) && !At0(t, LBrk) && !AtWord(t)
    ensures G.ParseTargetAtom(t) == G.Err
  {
  }

  lemma ParenTarget(t: Toks)
    requires At0(t, LPar) && SamePrimary(ReadPrimary(t), G.ParseTrailer(t))
    ensures SamePrimary(ReadPrimary(t), Stopped(G.ParseTargetAtom(t)))
  {
    hide G.ParseParenAtom, G.TrailerTail, EmitPrimary, ReadPrimary;
    assert G.ParseTargetAtom(t) == G.ParseTrailer(t);
  }

  lemma {:induction false} NameTargetAgrees(t: Toks)
    requires Shared(t) && AtWord(t)
    ensures SamePrimary(ReadPrimary(t), Stopped(G.ParseTargetAtom(t)))
    decreases Len(t), 52
  {
    hide G.TargetTail, Trailers, EmitTrailers, Exit, Shared, PlainTarget;
    hide G.ParseTargetAtom, ReadPrimary, EmitPrimary, G.WordText;
    Next(t);
    var name := Name(G.WordText(t.hd.w));
    TargetTailAgrees(name, t.tl);
    NamePrimary(t);
    TailPlain(name, t.tl);
    if PlainTarget(name) {
      NameEmitted(t.hd.w, Trailers(t.tl).0);
    }
  }

  lemma NamePrimary(t: Toks)
    requires AtWord(t)
    ensures G.ParseTargetAtom(t) == G.TargetTail(Name(G.WordText(t.hd.w)), Rest(t))
    ensures ReadPrimary(t) == G.Ok(Primary(AtomName(t.hd.w), Trailers(Rest(t)).0), Trailers(Rest(t)).1)
  {
    hide G.TargetTail, Trailers, G.WordText;
  }

  lemma NameEmitted(w: Word, ts: seq<Trailer>)
    requires PlainTarget(Name(G.WordText(w)))
    ensures EmitPrimary(V2, Primary(AtomName(w), ts)) == EmitTrailers(V2, Name(G.WordText(w)), ts)
  {
    hide EmitTrailers;
    assert EmitAtom(V2, AtomName(w)) == EmitWord(w);
  }

  /** Trailers make no target plain, nor the contrary. */
  lemma {:induction false} TailPlain(cur: Expr, t: Toks)
    ensures match G.TargetTail(cur, t) case Err => true case Ok(e, _) => PlainTarget(e) == PlainTarget(cur)
    decreases Len(t)
  {
    hide G.ParseSubscriptBody, G.ParseAttrName, PlainTarget;
    if At0(t, Dot) {
      var v := G.ParseAttrName(t.tl);
      if v.Ok? {
        TailPlain(Attribute(cur, v.v), v.rest);
        PlainSteps(cur, v.v, cur);
      }
    } else if At0(t, LBrk) {
      var v := G.ParseSubscriptBody(t.tl);
      if v.Ok? && At0(v.rest, RBrk) {
        TailPlain(Subscript(cur, v.v), v.rest.tl);
        PlainSteps(cur, "", v.v);
      }
    }
  }

  lemma PlainSteps(cur: Expr, a: string, i: Expr)
    ensures PlainTarget(Attribute(cur, a)) == PlainTarget(cur) == PlainTarget(Subscript(cur, i))
  {
  }

  /** One step of the loop over a target's trailers. */
  function Targeted(cur: Expr, t: Toks): G.Res<Expr> {
    if At0(t, Dot) then
      match G.ParseAttrName(Rest(t)) case Err => G.Err case Ok(a, k) => G.TargetTail(Attribute(cur, a), k)
    else if At0(t, LBrk) then
      match G.ParseSubscriptBody(Rest(t))
      case Err => G.Err
      case Ok(i, k) => if At0(k, RBrk) then G.TargetTail(Subscript(cur, i), Rest(k)) else G.Err
    else G.Ok(cur, t)
  }

  lemma TargetStep(cur: Expr, t: Toks)
    ensures G.TargetTail(cur, t) == Targeted(cur, t)
  {
    hide G.ParseAttrName, G.ParseSubscriptBody;
  }

  lemma {:induction false} TargetTailAgrees(cur: Expr, t: Toks)
    requires Shared(t)
    ensures SameTrailers(cur, Trailers(t), Stopped(G.TargetTail(cur, t)))
    decreases Len(t), 50
  {
    hide ReadTrailer, G.ParseSubscriptBody, G.ParseAttrName, ApplyTrailer, EmitTrailers, Exit, Shared, Apart, Trailers,
      G.TargetTail, PlainTarget;
    TrailersNone(cur);
    TrailersStep(t);
    TargetStep(cur, t);
    if At0(t, Dot) {
      Next(t);
      EatAttrName(t.tl);
      var v := G.ParseAttrName(t.tl);
      if v.Ok? {
        Dotted(t);
        TargetTailAgrees(Attribute(cur, v.v), v.rest);
        TrailersCons(cur, Attr(v.v), Trailers(v.rest).0);
      }
    } else if At0(t, LBrk) {
      Next(t);
      SubscriptAgrees(t);
      EatSubscriptBody(t.tl);
      var v := G.ParseSubscriptBody(t.tl);
      if v.Ok? && At0(v.rest, RBrk) {
        Next(v.rest);
        TargetTailAgrees(Subscript(cur, v.v), v.rest.tl);
        var x := ReadTrailer(t).v;
        TrailersCons(cur, x, Trailers(v.rest.tl).0);
        SubscriptApplied(cur, x, v.v, Trailers(v.rest.tl).0);
      }
    } else if TargetStop(t) {
      NoTrailer(t);
    }
  }

  // ----- trailers -----

  lemma TrailersCons(cur: Expr, x: Trailer, xs: seq<Trailer>)
    ensures EmitTrailers(V2, cur, [x] + xs) == EmitTrailers(V2, ApplyTrailer(V2, cur, x), xs)
    ensures x.Attr? ==> ApplyTrailer(V2, cur, x) == Attribute(cur, x.attr)
  {
    var ts := [x] + xs;
    assert ts[0] == x && ts[1..] == xs;
  }

  lemma TrailersNone(cur: Expr)
    ensures EmitTrailers(V2, cur, []) == cur
  {
  }

  lemma Dotted(t: Toks)
    requires At0(t, Dot) && G.ParseAttrName(Rest(t)).Ok?
    ensures match G.ParseAttrName(Rest(t)) case Err => false case Ok(a, k) => ReadTrailer(t) == G.Ok(Attr(a), k)
  {
  }

  lemma NoTrailer(t: Toks)
    requires !At0(t, Dot) && !At0(t, LPar) && !At0(t, LBrk)
    ensures Trailers(t) == ([], t)
  {
    assert ReadTrailer(t) == G.Err;
  }

  /** A subscript, from its opening bracket through the closing one. */
  predicate SameSubscript(r: G.Res<Trailer>, g: G.Res<Expr>) {
    match g
    case Err => true
    case Ok(e, k) =>
      At0(k, RBrk) ==>
        match r
        case Err => false
        case Ok(x, k') =>
          k' == k.tl && x.SubOf? && Indexed(x.items, x.comma) == e
  }

  /** The index that the v2 parser makes of subscripts. */
  function Indexed(items: seq<Subscripted>, comma: bool): Expr {
    if |items| != 1 then Tuple(EmitSubs(V2, items))
    else
      var item := EmitSub(V2, items[0]);
      if comma || item.Starred? then Tuple([item]) else item
  }

  lemma SubscriptApplied(cur: Expr, x: Trailer, e: Expr, xs: seq<Trailer>)
    requires x.SubOf? && Indexed(x.items, x.comma) == e
    ensures EmitTrailers(V2, ApplyTrailer(V2, cur, x), xs) == EmitTrailers(V2, Subscript(cur, e), xs)
  {
    hide EmitTrailers, EmitSub, EmitSubs;
  }

  lemma {:induction false} TrailersAgree(cur: Expr, t: Toks)
    requires Shared(t)
    ensures SameTrailers(cur, Trailers(t), G.TrailerTail(cur, t))
    decreases Len(t), 50
  {
    hide ReadTrailer, G.ParseSubscriptBody, G.ParseCallArgs, G.ParseAttrName, ApplyTrailer, EmitTrailers, Exit,
      Shared, Apart, Trailers, G.TrailerTail;
    TrailersNone(cur);
    TrailersStep(t);
    TailStep(cur, t);
    if At0(t, Dot) {
      Next(t);
      EatAttrName(t.tl);
      var v := G.ParseAttrName(t.tl);
      if v.Ok? {
        Dotted(t);
        TrailersAgree(Attribute(cur, v.v), v.rest);
        TrailersCons(cur, Attr(v.v), Trailers(v.rest).0);
      }
    } else if At0(t, LPar) {
      Next(t);
      CallAgrees(t);
      EatCallArgs(t.tl);
      var v := G.ParseCallArgs(t.tl);
      if v.Ok? {
        TrailersAgree(Call(cur, v.v.args, v.v.keywords), v.rest);
        var x := ReadTrailer(t).v;
        TrailersCons(cur, x, Trailers(v.rest).0);
        CallApplied(cur, x, v.v, Trailers(v.rest).0);
      }
    } else if At0(t, LBrk) {
      Next(t);
      SubscriptAgrees(t);
      EatSubscriptBody(t.tl);
      var v := G.ParseSubscriptBody(t.tl);
      if v.Ok? && At0(v.rest, RBrk) {
        Next(v.rest);
        TrailersAgree(Subscript(cur, v.v), v.rest.tl);
        var x := ReadTrailer(t).v;
        TrailersCons(cur, x, Trailers(v.rest.tl).0);
        SubscriptApplied(cur, x, v.v, Trailers(v.rest.tl).0);
      }
    } else {
      NoTrailer(t);
    }
  }

  lemma TrailersStep(t: Toks)
    ensures match ReadTrailer(t)
            case Err => Trailers(t) == ([], t)
            case Ok(x, k) => Trailers(t) == ([x] + Trailers(k).0, Trailers(k).1)
  {
    hide ReadTrailer;
  }

  /** One step of the loop over trailers. */
  function Stepped(cur: Expr, t: Toks): G.Res<Expr> {
    if At0(t, Dot) then
      match G.ParseAttrName(Rest(t)) case Err => G.Err case Ok(a, k) => G.TrailerTail(Attribute(cur, a), k)
    else if At0(t, LPar) then
      match G.ParseCallArgs(Rest(t)) case Err => G.Err case Ok(c, k) => G.TrailerTail(Call(cur, c.args, c.keywords), k)
    else if At0(t, LBrk) then
      match G.ParseSubscriptBody(Rest(t))
      case Err => G.Err
      case Ok(i, k) => if At0(k, RBrk) then G.TrailerTail(Subscript(cur, i), Rest(k)) else G.Err
    else G.Ok(cur, t)
  }

  lemma TailStep(cur: Expr, t: Toks)
    ensures G.TrailerTail(cur, t) == Stepped(cur, t)
  {
    hide G.ParseAttrName, G.ParseCallArgs, G.ParseSubscriptBody;
  }

  lemma {:induction false} PrimaryAgrees(t: Toks)
    requires Shared(t)
    ensures SamePrimary(ReadPrimary(t), G.ParseTrailer(t))
    decreases Len(t), 34
  {
    hide ReadAtom, G.ParseAtom, Trailers, G.TrailerTail, EmitAtom, EmitTrailers, Exit, Shared;
    AtomAgrees(t);
    EatAtom(t);
    var v := G.ParseAtom(t);
    if v.Ok? {
      TrailersAgree(v.v, v.rest);
    }
  }

  // ----- calls -----

  /** A call's arguments, from the opening parenthesis through the closing one. */
  predicate SameCall(r: G.Res<Trailer>, g: G.Res<G.CallArgs>) {
    match g
    case Err => true
    case Ok(c, k) =>
      match r
      case Err => false
      case Ok(x, k') =>
        k' == k && x.CallOf? && EmitCall(V2, x.args) == c
  }

  lemma CallApplied(cur: Expr, x: Trailer, c: G.CallArgs, xs: seq<Trailer>)
    requires x.CallOf? && EmitCall(V2, x.args) == c
    ensures EmitTrailers(V2, ApplyTrailer(V2, cur, x), xs) == EmitTrailers(V2, Call(cur, c.args, c.keywords), xs)
  {
    hide EmitTrailers, EmitCall;
  }

  predicate SameArgs(r: (List<Argument>, Toks), g: G.Res<G.CallArgs>) {
    match g
    case Err => true
    case Ok(c, k) => At0(r.1, RPar) && r.1.tl == k && EmitCall(V2, r.0) == c
  }

  lemma {:induction false} CallAgrees(t: Toks)
    requires Shared(t) && At0(t, LPar)
    ensures SameCall(ReadTrailer(t), G.ParseCallArgs(Rest(t)))
    decreases Len(t), 48
  {
    hide ReadArgs, G.ParseCallArgs, EmitCall, Shared, Apart, Exit;
    Next(t);
    ArgsAgree(t.tl);
  }

  lemma {:induction false} ArgsAgree(t: Toks)
    requires Shared(t)
    ensures SameArgs(ReadArgs(t), G.ParseCallArgs(t))
    decreases Len(t), 80
  {
    hide G.CallTail, ReadArgument, MoreArgs, Comps, Shared, Apart, Exit;
    if At0(t, RPar) {
      Nothing(t);
      assert EmitCall(V2, List(None, [], [], false)) == G.CallArgs([], []);
    } else {
      FirstAgrees(t);
    }
  }

  /** One argument: what it adds, and the tokens after it. */
  predicate SameArg(r: G.Res<Argument>, c: G.CallArgs, k: Toks) {
    match r case Err => false case Ok(a, k') => k' == k && EmitArg(V2, a) == c
  }

  /** What the v2 parser makes of the argument at t, before what follows it. */
  function Alone(t: Toks): G.Res<G.CallArgs> {
    if At0(t, DStar) then
      var (v, r1) :- G.ParseExpr(t.tl);
      G.Ok(G.CallArgs([], [Keyword(None, v)]), r1)
    else if At0(t, Star) then
      var (v, r1) :- G.ParseExpr(t.tl);
      G.Ok(G.CallArgs([Starred(v)], []), r1)
    else if AtPlainName(t) && At0(t.tl, Assign) then
      var (v, r1) :- G.ParseExpr(t.tl.tl);
      G.Ok(G.CallArgs([], [Keyword(Some(t.hd.w.id), v)]), r1)
    else
      var (v, r1) :- G.ParseExpr(t);
      G.Ok(G.CallArgs([v], []), r1)
  }

  predicate Plainly(t: Toks) {
    !At0(t, DStar) && !At0(t, Star) && !(AtPlainName(t) && At0(t.tl, Assign))
  }

  lemma TailByOne(empty: bool, t: Toks)
    ensures match Alone(t)
            case Err => G.CallTail(empty, t) == G.Err
            case Ok(c, k) =>
              if empty && Plainly(t) && G.CompForStart(k) then
                G.CallTail(empty, t) ==
                  match G.ParseGens(k)
                  case Err => G.Err
                  case Ok(gs, m) =>
                    if At0(m, RPar) && |c.args| == 1 then G.Ok(G.CallArgs([GeneratorExp(c.args[0], gs)], []), Rest(m))
                      else G.Err
              else G.CallTail(empty, t) == G.CallNext(c, k)
  {
    hide G.ParseExpr, G.CallNext, G.ParseGens, G.CompForStart;
  }

  /** An argument is named if an ordinary name and `=` begin it. */
  lemma NamedArgAt(t: Toks)
    requires Shared(t)
    ensures AtPlainName(t) && At0(Rest(t), Assign) ==>
              match ReadExpression(Rest(Rest(t)))
              case Err => ReadNamedArg(t) == G.Err
              case Ok(e, k) => ReadNamedArg(t) == G.Ok(NamedArg(G.WordText(t.hd.w), e), k)
    ensures !(AtPlainName(t) && At0(Rest(t), Assign)) ==> ReadNamedArg(t) == G.Err
  {
    hide ReadExpression, StarredKey, WordTargets, G.WordText;
  }

  lemma {:induction false} AloneAgrees(t: Toks)
    requires Shared(t)
    ensures match Alone(t) case Err => true case Ok(c, k) => SameArg(ReadArgument(t), c, k)
    decreases Len(t), 78
  {
    hide ReadExpression, G.ParseExpr, Emit, Exit, Shared, Apart, ReadNamedArg, G.WordText;
    NamedArgAt(t);
    if t.Cons? {
      Next(t);
    }
    if At0(t, DStar) || At0(t, Star) {
      ExprAgrees(t.tl);
    } else if AtPlainName(t) && At0(t.tl, Assign) {
      Next(t.tl);
      assert Len(t) == 1 + Len(t.tl) && G.WordText(t.hd.w) == t.hd.w.id by { PlainText(t.hd.w); }
      ExprAgrees(t.tl.tl);
    } else {
      ExprAgrees(t);
    }
  }

  lemma PlainText(w: Word)
    requires w.Ident?
    ensures G.WordText(w) == w.id
  {
  }

  lemma {:induction false} EatAlone(t: Toks)
    ensures Eaten(t, Alone(t))
  {
    hide G.ParseExpr, Exit, Shared;
    if t.Cons? {
      Past(t);
    }
    if At0(t, DStar) || At0(t, Star) {
      EatExpr(t.tl);
    } else if AtPlainName(t) && At0(t.tl, Assign) {
      Two(t);
      EatExpr(t.tl.tl);
    } else {
      EatExpr(t);
    }
  }

  predicate SameMore(a: G.CallArgs, r: (seq<Argument>, Toks), g: G.Res<G.CallArgs>) {
    match g
    case Err => true
    case Ok(c, k) =>
      At0(Trailing(r.1), RPar) && Trailing(r.1).tl == k && Joint(a, EmitArgs(V2, r.0)) == c
  }

  lemma ArgsCons(a: Argument, l: seq<Argument>)
    ensures EmitArgs(V2, [a] + l) == Joint(EmitArg(V2, a), EmitArgs(V2, l))
  {
    hide EmitArg, Joint;
    assert ([a] + l)[1..] == l;
  }

  lemma ArgsNone(a: G.CallArgs)
    ensures EmitArgs(V2, []) == G.CallArgs([], []) && Joint(a, EmitArgs(V2, [])) == a
  {
    assert a.args + [] == a.args && a.keywords + [] == a.keywords;
  }

  /** What follows an argument. */
  lemma {:induction false} NextAgrees(a: G.CallArgs, t: Toks)
    requires Shared(t)
    ensures SameMore(a, MoreArgs(t), G.CallNext(a, t))
    decreases Len(t), 82
  {
    hide ReadArgument, G.CallTail, Alone, EmitArg, EmitArgs, Joint, Shared, Apart, Exit;
    ArgsNone(a);
    if At0(t, Comma) && !At0(t.tl, RPar) {
      Next(t);
      AloneAgrees(t.tl);
      EatAlone(t.tl);
      TailByOne(false, t.tl);
      var v := Alone(t.tl);
      if v.Ok? {
        NextAgrees(v.v, v.rest);
        var w := G.CallNext(v.v, v.rest);
        if w.Ok? {
          var x, l := ReadArgument(t.tl).v, MoreArgs(v.rest).0;
          ArgsCons(x, l);
        }
      }
      JoinNext(a, t);
    } else if At0(t, Comma) {
      Nothing(t.tl);
    }
  }

  function Joined(a: G.CallArgs, g: G.Res<G.CallArgs>): G.Res<G.CallArgs> {
    match g case Err => G.Err case Ok(b, k) => G.Ok(Joint(a, b), k)
  }

  lemma JoinNext(a: G.CallArgs, t: Toks)
    requires At0(t, Comma) && !At0(Rest(t), RPar)
    ensures G.CallNext(a, t) == Joined(a, G.CallTail(false, Rest(t)))
  {
    hide G.CallTail;
  }

  /** All arguments from the first one on. */
  lemma {:induction false} FirstAgrees(t: Toks)
    requires Shared(t) && !At0(t, RPar)
    ensures SameArgs(ReadArgs(t), G.ParseCallArgs(t))
    decreases Len(t), 79
  {
    hide ReadArgument, G.CallTail, Alone, G.CallNext, MoreArgs, Comps, EmitArg, EmitArgs, EmitComps, Joint, Shared,
      Apart, Exit, G.ParseGens, G.CompForStart, ReadArgs, EmitCall;
    assert G.ParseCallArgs(t) == G.CallTail(true, t);
    AloneAgrees(t);
    EatAlone(t);
    TailByOne(true, t);
    var v := Alone(t);
    if v.Ok? {
      if G.CompForStart(v.rest) {
        if Plainly(t) {
          CompsAgree(v.rest);
          if G.ParseGens(v.rest).Ok? {
            SomeComps(v.rest);
          }
          GeneratorCall(t, v.v, v.rest);
        } else {
          NoNext(v.v, v.rest);
        }
      } else {
        NoComps(v.rest);
        NextAgrees(v.v, v.rest);
        PlainCall(t, v.v, v.rest);
      }
    }
  }

  lemma NoNext(a: G.CallArgs, t: Toks)
    requires G.CompForStart(t)
    ensures G.CallNext(a, t) == G.Err
  {
  }

  lemma GeneratorCall(t: Toks, c: G.CallArgs, k: Toks)
    requires Plainly(t) && Alone(t) == G.Ok(c, k) && SameArg(ReadArgument(t), c, k)
      && SameComps(Comps(k), G.ParseGens(k))
    requires G.ParseGens(k).Ok? ==> Comps(k).0 != []
    ensures match G.ParseGens(k)
            case Err => true
            case Ok(gs, m) =>
              At0(m, RPar) && |c.args| == 1 ==>
                SameArgs(ReadArgs(t), G.Ok(G.CallArgs([GeneratorExp(c.args[0], gs)], []), Rest(m)))
  {
    hide ReadExpression, G.ParseExpr, ReadNamedArg, Comps, MoreArgs, EmitComps, EmitArgs, Emit, G.ParseGens;
    PlainOne(t);
  }

  lemma PlainOne(t: Toks)
    requires Plainly(t)
    ensures match Alone(t) case Err => true case Ok(c, _) => |c.args| == 1 && c.keywords == []
    ensures match ReadArgument(t) case Err => true case Ok(a, _) => a.PlainArg? || a.NamedArg?
  {
    hide ReadExpression, G.ParseExpr;
  }

  lemma PlainCall(t: Toks, c: G.CallArgs, k: Toks)
    requires Alone(t) == G.Ok(c, k) && SameArg(ReadArgument(t), c, k) && Comps(k) == ([], k)
    requires SameMore(c, MoreArgs(k), G.CallNext(c, k))
    ensures SameArgs(ReadArgs(t), G.CallNext(c, k))
  {
    hide ReadArgument, Comps, MoreArgs, EmitArg, EmitArgs, Joint, G.CallNext, Alone;
  }

  // ----- subscripts -----

  predicate SameSub(r: G.Res<Subscripted>, g: G.Res<Expr>) {
    match g
    case Err => true
    case Ok(e, k) =>
      match r
      case Err => false
      case Ok(x, k') => k' == k && EmitSub(V2, x) == e
  }

  predicate SameSubs(r: (seq<Subscripted>, Toks), g: G.Res<seq<Expr>>) {
    match g case Err => true case Ok(es, k) => Trailing(r.1) == k && EmitSubs(V2, r.0) == es
  }

  lemma SubsCons(i: Subscripted, l: seq<Subscripted>)
    ensures EmitSubs(V2, [i] + l) == [EmitSub(V2, i)] + EmitSubs(V2, l)
    ensures EmitSubs(V2, []) == []
  {
    hide EmitSub;
    assert ([i] + l)[1..] == l;
  }

  lemma {:induction false} SubscriptAgrees(t: Toks)
    requires Shared(t) && At0(t, LBrk)
    ensures SameSubscript(ReadTrailer(t), G.ParseSubscriptBody(Rest(t)))
    decreases Len(t), 48
  {
    hide ReadSub, G.ParseSubscriptItem, Subs, G.SubscriptTail, EmitSub, EmitSubs, Shared, Apart, Exit, ReadTrailer,
      ApplyTrailer;
    Next(t);
    SubAgrees(t.tl);
    EatSubscriptItem(t.tl);
    var v := G.ParseSubscriptItem(t.tl);
    if v.Ok? {
      SubsStay(v.rest);
      SubsCons(ReadSub(t.tl).v, Subs(v.rest).0);
      if At0(v.rest, Comma) {
        SubsAgree(v.rest);
      }
      SubscriptGlue(t);
    }
  }

  lemma SubsStay(t: Toks)
    ensures Subs(t).0 == [] ==> Subs(t).1 == t
    ensures !At0(t, Comma) ==> Subs(t) == ([], t)
  {
    hide ReadSub;
  }

  lemma SubscriptGlue(t: Toks)
    requires At0(t, LBrk) && SameSub(ReadSub(Rest(t)), G.ParseSubscriptItem(Rest(t)))
    requires match G.ParseSubscriptItem(Rest(t))
             case Err => false
             case Ok(_, k) =>
               && (At0(k, Comma) ==> SameSubs(Subs(k), G.SubscriptTail(k)))
               && (!At0(k, Comma) ==> Subs(k) == ([], k))
               && (Subs(k).0 == [] ==> Subs(k).1 == k)
    ensures SameSubscript(ReadTrailer(t), G.ParseSubscriptBody(Rest(t)))
  {
    hide ReadSub, G.ParseSubscriptItem, Subs, G.SubscriptTail, EmitSub, EmitSubs, ReadTrailer, G.ParseSubscriptBody;
    var x, k := ReadSub(t.tl).v, ReadSub(t.tl).rest;
    var more, r := Subs(k).0, Subs(k).1;
    SubsCons(x, more);
    SubsCons(x, []);
    SubsNone();
    TrailerAt(t);
    BodyAt(t.tl);
    assert |[x] + more| == 1 <==> more == [];
  }

  lemma TrailerAt(t: Toks)
    requires At0(t, LBrk)
    ensures match ReadSub(Rest(t))
            case Err => true
            case Ok(x, k) =>
              var (more, r) := Subs(k);
              ReadTrailer(t) == if At0(Trailing(r), RBrk) then G.Ok(SubOf([x] + more, At0(r, Comma)), Trailing(r).tl)
                else G.Err
  {
    hide ReadSub, Subs;
  }

  lemma BodyAt(t: Toks)
    ensures match G.ParseSubscriptItem(t)
            case Err => true
            case Ok(e, k) =>
              if !At0(k, Comma) then G.ParseSubscriptBody(t) == G.Ok(if e.Starred? then Tuple([e]) else e, k)
              else match G.SubscriptTail(k)
                case Err => G.ParseSubscriptBody(t) == G.Err
                case Ok(es, m) => G.ParseSubscriptBody(t) == G.Ok(Tuple([e] + es), m)
  {
    hide G.ParseSubscriptItem, G.SubscriptTail;
  }

  lemma {:induction false} SubsAgree(t: Toks)
    requires Shared(t) && At0(t, Comma)
    ensures SameSubs(Subs(t), G.SubscriptTail(t))
    decreases Len(t), 90
  {
    hide ReadSub, G.ParseSubscriptItem, EmitSub, EmitSubs, Shared, Apart, Exit;
    Next(t);
    if At0(t.tl, RBrk) {
      Nothing(t.tl);
      assert Subs(t) == ([], t);
      SubsNone();
    } else {
      SubAgrees(t.tl);
      EatSubscriptItem(t.tl);
      var v := G.ParseSubscriptItem(t.tl);
      if v.Ok? {
        SubsCons(ReadSub(t.tl).v, Subs(v.rest).0);
        SubsStay(v.rest);
        SubsNone();
        if At0(v.rest, Comma) {
          SubsAgree(v.rest);
        }
      }
    }
  }

  lemma SubsNone()
    ensures EmitSubs(V2, []) == []
  {
  }

  lemma {:induction false} SubAgrees(t: Toks)
    requires Shared(t)
    ensures SameSub(ReadSub(t), G.ParseSubscriptItem(t))
    decreases Len(t), 88
  {
    hide ReadExpression, G.ParseExpr, ReadSlice, G.ParseSlice, Emit, Shared, Apart, Exit;
    if At0(t, Star) {
      Next(t);
      ExprAgrees(t.tl);
    } else if At0(t, Colon) {
      Nothing(t);
      SliceAgrees(t);
      SliceGlue(t);
    } else {
      ExprAgrees(t);
      EatExpr(t);
      var v := G.ParseExpr(t);
      if v.Ok? && At0(v.rest, Colon) {
        SliceAgrees(v.rest);
        SliceGlue(v.rest);
      }
    }
  }

  /** A slice from its first colon: the parts after the lower bound. */
  predicate SameSlice(t: Toks)
    requires At0(t, Colon)
  {
    match G.ParseSlice(None, t)
    case Err => true
    case Ok(e, k) =>
      var (s, k') := ReadSlice(t);
      k' == k && e == Slice(None, EmitMaybe(V2, s.upper), EmitStep(V2, s.step))
  }

  lemma SliceGlue(t: Toks)
    requires At0(t, Colon) && SameSlice(t)
    ensures forall lower ::
              match G.ParseSlice(lower, t)
              case Err => true
              case Ok(e, k) =>
                var (s, k') := ReadSlice(t);
                && k' == k && e.Slice?
                && e == Slice(lower, EmitMaybe(V2, s.upper), EmitStep(V2, s.step))
  {
    hide ReadSlice, G.ParseSlicePart, G.ParseStep, EmitMaybe, EmitStep;
  }

  predicate SameMaybe(r: (Option<Expression>, Toks), g: G.Res<Option<Expr>>) {
    match g case Err => true case Ok(o, k) => r.1 == k && EmitMaybe(V2, r.0) == o
  }

  lemma {:induction false} SliceAgrees(t: Toks)
    requires Shared(t) && At0(t, Colon)
    ensures SameSlice(t)
    decreases Len(t), 30
  {
    hide Maybe, G.ParseSlicePart, G.ParseStep, EmitMaybe, Shared, Apart, Exit;
    Next(t);
    PartAgrees(t.tl);
    EatSlicePart(t.tl);
    var v := G.ParseSlicePart(t.tl);
    if v.Ok? && At0(v.rest, Colon) {
      Next(v.rest);
      StepAgrees(v.rest.tl);
    }
  }

  lemma {:induction false} PartAgrees(t: Toks)
    requires Shared(t)
    ensures SameMaybe(Maybe(t), G.ParseSlicePart(t))
    decreases Len(t), 62
  {
    hide ReadExpression, G.ParseExpr, Emit, Shared, Apart, Exit;
    if At0(t, Colon) || At0(t, RBrk) || At0(t, Comma) {
      Nothing(t);
    } else {
      ExprAgrees(t);
    }
  }

  lemma {:induction false} StepAgrees(t: Toks)
    requires Shared(t)
    ensures SameMaybe(Maybe(t), G.ParseStep(t))
    decreases Len(t), 62
  {
    hide ReadExpression, G.ParseExpr, Emit, Shared, Apart, Exit;
    if At0(t, RBrk) || At0(t, Comma) {
      Nothing(t);
    } else {
      ExprAgrees(t);
    }
  }

  // ----- atoms -----

  lemma {:induction false} AtomAgrees(t: Toks)
    requires Shared(t)
    ensures SameAtom(ReadAtom(t), G.ParseAtom(t))
    decreases Len(t), 32
  {
    hide G.StringTail, G.ParseParenAtom, G.ParseListAtom, G.ParseBraceAtom, Parts, ReadElems, ReadItems, EmitList,
      EmitBrace, EmitParen, KindOf, TextOfParts, G.WordText, Shared, Apart, Exit, ReadAtom, G.ParseAtom, EmitAtom;
    if t.Cons? {
      Next(t);
      if t.hd.StrLit? {
        StringsAgree(t);
      } else if t.hd == LPar {
        ParenAgrees(t);
      } else if t.hd == LBrk {
        ListAgrees(t);
      } else if t.hd == LBrc {
        BraceAgrees(t);
      } else {
        TokenAgrees(t);
      }
    } else {
      assert G.ParseAtom(t) == G.Err by { NothingLeft(t); }
    }
  }

  lemma NothingLeft(t: Toks)
    requires t.End?
    ensures G.ParseAtom(t) == G.Err
  {
  }

  /** Names, numbers and the ellipsis. */
  lemma TokenAgrees(t: Toks)
    requires !AtString(t) && !At0(t, LPar) && !At0(t, LBrk) && !At0(t, LBrc)
    ensures SameAtom(ReadAtom(t), G.ParseAtom(t))
  {
    hide G.WordText;
  }

  // ----- strings -----

  predicate SameParts(r: (seq<Part>, Toks), kind: StrKind, v: string, g: G.Res<Expr>) {
    match g
    case Err => true
    case Ok(e, k) =>
      && r.1 == k && e == Constant(CStr(kind, v + TextOfParts(r.0)))
      && forall p | p in r.0 :: (p.kind == StrKind.Bytes) == (kind == StrKind.Bytes)
  }

  lemma {:induction false} PartsAgree(kind: StrKind, v: string, t: Toks)
    ensures SameParts(Parts(t), kind, v, G.StringTail(kind, v, t))
    decreases Len(t)
  {
    if t.Cons? && t.hd.StrLit? {
      if (kind == StrKind.Bytes) == (t.hd.kind == StrKind.Bytes) {
        PartsAgree(kind, v + t.hd.val, t.tl);
        var ps := Parts(t.tl).0;
        var all := [Part(t.hd.kind, t.hd.val)] + ps;
        assert all[0] == Part(t.hd.kind, t.hd.val) && all[1..] == ps;
        assert (v + t.hd.val) + TextOfParts(ps) == v + (t.hd.val + TextOfParts(ps));
      }
    } else {
      assert v + TextOfParts([]) == v;
    }
  }

  predicate AtString(t: Toks) {
    t.Cons? && t.hd.StrLit?
  }

  lemma StringsAgree(t: Toks)
    requires AtString(t)
    ensures SameAtom(ReadAtom(t), G.ParseAtom(t))
  {
    hide G.StringTail, Parts;
    PartsAgree(t.hd.kind, t.hd.val, t.tl);
    var ps := Parts(t.tl).0;
    var all := [Part(t.hd.kind, t.hd.val)] + ps;
    assert all[0] == Part(t.hd.kind, t.hd.val) && all[1..] == ps;
    assert ReadAtom(t) == G.Ok(Strings(all), Parts(t.tl).1);
    assert G.ParseAtom(t) == G.StringTail(t.hd.kind, t.hd.val, t.tl);
    assert TextOfParts(all) == t.hd.val + TextOfParts(ps);
    hide ReadAtom, G.ParseAtom, TextOfParts;
    if G.StringTail(t.hd.kind, t.hd.val, t.tl).Ok? {
      OneKind(all, ps);
    }
  }

  /** Where strings are joined, the first one tells the kind of a regular text. */
  lemma OneKind(all: seq<Part>, ps: seq<Part>)
    requires all != [] && all[1..] == ps
    requires forall p | p in ps :: (p.kind == StrKind.Bytes) == (all[0].kind == StrKind.Bytes)
  {
    assert all[0] in all;
    assert forall p | p in all :: p == all[0] || p in ps;
  }

  // ----- lists and parentheses -----

  lemma {:induction false} ListAgrees(t: Toks)
    requires Shared(t) && At0(t, LBrk)
    ensures SameAtom(ReadAtom(t), G.ParseAtom(t))
    decreases Len(t), 30
  {
    hide ReadElem, G.ParseStarOrExpr, MoreElems, G.EltsTail, Comps, G.ParseGens, G.CompForStart, EmitElem, EmitElems,
      EmitComps, Shared, Apart, Exit, ReadAtom, G.ParseAtom, G.ParseListAtom, ReadElems;
    Next(t);
    var u := t.tl;
    ListAtomAt(t);
    if At0(u, RBrk) {
      Nothing(u);
      EmptyElems(u);
      EmptyList(t);
    } else {
      ElemAgrees(u);
      EatStarOrExpr(u);
      var v := G.ParseStarOrExpr(u);
      if v.Ok? {
        if G.CompForStart(v.rest) {
          CompsAgree(v.rest);
          if G.ParseGens(v.rest).Ok? {
            SomeComps(v.rest);
          }
        } else {
          NoComps(v.rest);
          EltsAgree(RBrk, v.rest);
        }
        ElemsAt(u);
        ListGlue(t);
      } else {
        NoList(u);
      }
    }
  }

  lemma NoList(u: Toks)
    requires !At0(u, RBrk) && G.ParseStarOrExpr(u).Err?
    ensures G.ParseListAtom(u) == G.Err
  {
    hide G.ParseStarOrExpr;
  }

  lemma ListAtomAt(t: Toks)
    requires At0(t, LBrk)
    ensures G.ParseAtom(t) == G.ParseListAtom(Rest(t))
    ensures var (l, r) := ReadElems(Rest(t));
            ReadAtom(t) == if At0(r, RBrk) then G.Ok(ListLit(l), Rest(r)) else G.Err
  {
    hide G.ParseListAtom, ReadElems;
  }

  lemma EmptyElems(u: Toks)
    requires ReadElem(u) == G.Err
    ensures ReadElems(u) == (List(None, [], [], false), u)
  {
    hide ReadElem;
  }

  lemma EmptyList(t: Toks)
    requires At0(t, LBrk) && At0(Rest(t), RBrk)
    ensures G.ParseListAtom(Rest(t)) == G.Ok(ListExpr([]), Rest(Rest(t)))
    ensures EmitAtom(V2, ListLit(List(None, [], [], false))) == ListExpr([])
  {
  }

  /** The contents of brackets after their first element. */
  lemma ElemsAt(u: Toks)
    ensures match ReadElem(u)
            case Err => true
            case Ok(e, k) =>
              var (cs, m) := Comps(k);
              ReadElems(u) ==
                if cs != [] then (List(Some(e), cs, [], false), m)
                else (List(Some(e), [], MoreElems(k).0, At0(MoreElems(k).1, Comma)), Trailing(MoreElems(k).1))
  {
    hide ReadElem, Comps, MoreElems;
  }

  /** What both sides know of the contents of brackets. */
  predicate Inside(u: Toks, tail: G.Res<seq<Expr>>) {
    && SameElem(ReadElem(u), G.ParseStarOrExpr(u))
    && match G.ParseStarOrExpr(u)
       case Err => false
       case Ok(_, k) =>
         if G.CompForStart(k) then
           SameComps(Comps(k), G.ParseGens(k)) && (G.ParseGens(k).Ok? ==> Comps(k).0 != [])
         else Comps(k) == ([], k) && SameElems(MoreElems(k), tail)
  }

  /** A list of elements, as it is emitted. */
  lemma ListOf(e: Elem, cs: seq<CompFor>, more: seq<Elem>, comma: bool)
    ensures EmitAtom(V2, ListLit(List(Some(e), cs, more, comma))) ==
            if cs != [] then ListComp(EmitElem(V2, e), EmitComps(V2, cs))
              else ListExpr([EmitElem(V2, e)] + EmitElems(V2, more))
  {
    hide EmitElem, EmitElems, EmitComps;
    assert EmitAtom(V2, ListLit(List(Some(e), cs, more, comma))) == EmitList(V2, List(Some(e), cs, more, comma));
  }

  lemma ListBody(u: Toks)
    requires !At0(u, RBrk)
    ensures match G.ParseStarOrExpr(u)
            case Err => G.ParseListAtom(u) == G.Err
            case Ok(e, k) =>
              if G.CompForStart(k) then
                match G.ParseGens(k)
                case Err => G.ParseListAtom(u) == G.Err
                case Ok(gs, m) => G.ParseListAtom(u) == if At0(m, RBrk) then G.Ok(ListComp(e, gs), Rest(m)) else G.Err
              else
                match G.EltsTail(RBrk, k)
                case Err => G.ParseListAtom(u) == G.Err
                case Ok(es, m) => G.ParseListAtom(u) == if At0(m, RBrk) then G.Ok(ListExpr([e] + es), Rest(m))
                  else G.Err
  {
    hide G.ParseStarOrExpr, G.EltsTail, G.ParseGens, G.CompForStart;
  }

  lemma ListGlue(t: Toks)
    requires At0(t, LBrk) && !At0(Rest(t), RBrk)
    requires match G.ParseStarOrExpr(Rest(t)) case Err => false case Ok(_, k) => Inside(Rest(t), G.EltsTail(RBrk, k))
    requires match ReadElem(Rest(t))
             case Err => true
             case Ok(e, k) =>
               var (cs, m) := Comps(k);
               ReadElems(Rest(t)) ==
                 if cs != [] then (List(Some(e), cs, [], false), m)
                 else (List(Some(e), [], MoreElems(k).0, At0(MoreElems(k).1, Comma)), Trailing(MoreElems(k).1))
    requires var (l, r) := ReadElems(Rest(t)); ReadAtom(t) == if At0(r, RBrk) then G.Ok(ListLit(l), Rest(r)) else G.Err
    requires G.ParseAtom(t) == G.ParseListAtom(Rest(t))
    ensures SameAtom(ReadAtom(t), G.ParseAtom(t))
  {
    hide ReadElem, G.ParseStarOrExpr, MoreElems, G.EltsTail, Comps, G.ParseGens, G.CompForStart, EmitElem, EmitElems,
      EmitComps, ReadAtom, G.ParseAtom, G.ParseListAtom, ReadElems, EmitAtom;
    NoneEmitted();
    ListBody(t.tl);
    var (l, r) := ReadElems(t.tl);
    if l.first.Some? {
      ListOf(l.first.value, l.comp, l.rest, l.comma);
    }
  }

  lemma NoneEmitted()
    ensures EmitElems(V2, []) == []
  {
  }

  lemma {:induction false} ParenAgrees(t: Toks)
    requires Shared(t) && At0(t, LPar)
    ensures SameAtom(ReadAtom(t), G.ParseAtom(t))
    decreases Len(t), 30
  {
    hide ReadElem, G.ParseStarOrExpr, MoreElems, G.ParenTail, Comps, G.ParseGens, G.CompForStart, EmitElem, EmitElems,
      EmitComps, Shared, Apart, Exit, ReadAtom, G.ParseAtom, G.ParseParenAtom, ReadElems;
    Next(t);
    var u := t.tl;
    ParenAtomAt(t);
    if At0(u, RPar) {
      Nothing(u);
      EmptyElems(u);
      EmptyParen(t);
    } else {
      ElemAgrees(u);
      EatStarOrExpr(u);
      var v := G.ParseStarOrExpr(u);
      if v.Ok? {
        ElemsEnd(v.rest);
        ElemsStay(v.rest);
        if G.CompForStart(v.rest) {
          CompsAgree(v.rest);
          if G.ParseGens(v.rest).Ok? {
            SomeComps(v.rest);
          }
        } else {
          NoComps(v.rest);
          if At0(v.rest, Comma) {
            TupleAgrees(v.rest);
          }
        }
        ElemsAt(u);
        ParenGlue(t);
      } else {
        NoParen(u);
      }
    }
  }

  lemma NoParen(u: Toks)
    requires !At0(u, RPar) && G.ParseStarOrExpr(u).Err?
    ensures G.ParseParenAtom(u) == G.Err
  {
    hide G.ParseStarOrExpr;
  }

  lemma ParenAtomAt(t: Toks)
    requires At0(t, LPar)
    ensures G.ParseAtom(t) == G.ParseParenAtom(Rest(t))
    ensures var (l, r) := ReadElems(Rest(t));
            ReadAtom(t) == if At0(r, RPar) then G.Ok(ParenLit(l), Rest(r)) else G.Err
  {
    hide G.ParseParenAtom, ReadElems;
  }

  lemma EmptyParen(t: Toks)
    requires At0(t, LPar) && At0(Rest(t), RPar)
    ensures G.ParseParenAtom(Rest(t)) == G.Ok(Tuple([]), Rest(Rest(t)))
    ensures EmitAtom(V2, ParenLit(List(None, [], [], false))) == Tuple([])
  {
  }

  lemma ParenOf(e: Elem, cs: seq<CompFor>, more: seq<Elem>, comma: bool)
    ensures EmitAtom(V2, ParenLit(List(Some(e), cs, more, comma))) ==
            if cs != [] then GeneratorExp(EmitElem(V2, e), EmitComps(V2, cs))
            else if more == [] && !comma then EmitElem(V2, e)
            else Tuple([EmitElem(V2, e)] + EmitElems(V2, more))
  {
    hide EmitElem, EmitElems, EmitComps;
    assert EmitAtom(V2, ParenLit(List(Some(e), cs, more, comma))) == EmitParen(V2, List(Some(e), cs, more, comma));
  }

  lemma ParenBody(u: Toks)
    requires !At0(u, RPar)
    ensures match G.ParseStarOrExpr(u)
            case Err => G.ParseParenAtom(u) == G.Err
            case Ok(e, k) =>
              if G.CompForStart(k) then
                match G.ParseGens(k)
                case Err => G.ParseParenAtom(u) == G.Err
                case Ok(gs, m) => G.ParseParenAtom(u) == if At0(m, RPar) then G.Ok(GeneratorExp(e, gs), Rest(m))
                  else G.Err
              else if At0(k, RPar) then G.ParseParenAtom(u) == G.Ok(e, Rest(k))
              else if !At0(k, Comma) then G.ParseParenAtom(u) == G.Err
              else
                match G.ParenTail(Rest(k))
                case Err => G.ParseParenAtom(u) == G.Err
                case Ok(es, m) => G.ParseParenAtom(u) == if At0(m, RPar) then G.Ok(Tuple([e] + es), Rest(m)) else G.Err
  {
    hide G.ParseStarOrExpr, G.ParenTail, G.ParseGens, G.CompForStart;
  }

  lemma ParenGlue(t: Toks)
    requires At0(t, LPar) && !At0(Rest(t), RPar)
    requires SameElem(ReadElem(Rest(t)), G.ParseStarOrExpr(Rest(t)))
    requires match G.ParseStarOrExpr(Rest(t))
             case Err => false
             case Ok(_, k) =>
               if G.CompForStart(k) then
                 SameComps(Comps(k), G.ParseGens(k)) && (G.ParseGens(k).Ok? ==> Comps(k).0 != [])
               else
                 && Comps(k) == ([], k)
                 && (if At0(k, Comma) then SameElems(MoreElems(k), G.ParenTail(Rest(k))) else MoreElems(k) == ([], k))
                 && (MoreElems(k).0 == [] ==> MoreElems(k).1 == k)
    requires match ReadElem(Rest(t))
             case Err => true
             case Ok(e, k) =>
               var (cs, m) := Comps(k);
               ReadElems(Rest(t)) ==
                 if cs != [] then (List(Some(e), cs, [], false), m)
                 else (List(Some(e), [], MoreElems(k).0, At0(MoreElems(k).1, Comma)), Trailing(MoreElems(k).1))
    requires var (l, r) := ReadElems(Rest(t)); ReadAtom(t) == if At0(r, RPar) then G.Ok(ParenLit(l), Rest(r)) else G.Err
    requires G.ParseAtom(t) == G.ParseParenAtom(Rest(t))
    ensures SameAtom(ReadAtom(t), G.ParseAtom(t))
  {
    hide ReadElem, G.ParseStarOrExpr, MoreElems, G.ParenTail, Comps, G.ParseGens, G.CompForStart, EmitElem, EmitElems,
      EmitComps, ReadAtom, G.ParseAtom, G.ParseParenAtom, ReadElems, EmitAtom;
    NoneEmitted();
    ParenBody(t.tl);
    var (l, r) := ReadElems(t.tl);
    if l.first.Some? {
      ParenOf(l.first.value, l.comp, l.rest, l.comma);
    }
  }

  // ----- braces -----

  predicate SameItem(r: G.Res<Item>, g: G.Res<DictItem>) {
    match g
    case Err => true
    case Ok(e, k) => match r { case Err => false case Ok(x, k') => k' == k && EmitDictItem(V2, x) == [e] }
  }

  predicate SameItems(r: (seq<Item>, Toks), g: G.Res<seq<DictItem>>) {
    match g case Err => true case Ok(es, k) => Trailing(r.1) == k && EmitDictItems(V2, r.0) == es
  }

  predicate SameSetItems(r: (seq<Item>, Toks), g: G.Res<seq<Expr>>) {
    match g
    case Err => true
    case Ok(es, k) => At0(k, RBrc) ==> Trailing(r.1) == k && EmitSetItems(V2, r.0) == es
  }

  lemma ItemsCons(i: Item, l: seq<Item>)
    ensures EmitDictItems(V2, [i] + l) == EmitDictItem(V2, i) + EmitDictItems(V2, l)
    ensures EmitSetItems(V2, [i] + l) == [EmitSetItem(V2, i)] + EmitSetItems(V2, l)
  {
    hide EmitDictItem, EmitSetItem;
    assert ([i] + l)[1..] == l;
  }

  lemma ItemsNone()
    ensures EmitDictItems(V2, []) == [] && EmitSetItems(V2, []) == []
  {
  }

  lemma ItemsEnd(t: Toks)
    ensures At0(t, Comma) && ReadItem(Rest(t)) == G.Err ==> MoreItems(t) == ([], t)
    ensures !At0(t, Comma) ==> MoreItems(t) == ([], t)
  {
    hide ReadItem;
  }

  lemma ItemsMore(t: Toks)
    requires At0(t, Comma)
    ensures match ReadItem(Rest(t))
            case Err => true
            case Ok(i, k) => MoreItems(t) == ([i] + MoreItems(k).0, MoreItems(k).1)
  {
    hide ReadItem;
  }

  lemma {:induction false} ItemAgrees(t: Toks)
    requires Shared(t)
    ensures SameItem(ReadItem(t), G.ParseDictItem(t))
    decreases Len(t), 62
  {
    hide ReadExpression, G.ParseExpr, Shared, Apart, Exit, ReadItem, G.ParseDictItem, EmitDictItem, SameExpr;
    if At0(t, DStar) {
      Next(t);
      ExprAgrees(t.tl);
      UnpackedItem(t);
    } else {
      if At0(t, Star) {
        NoExprAtStar(t);
      } else {
        ExprAgrees(t);
        EatExpr(t);
        var v := G.ParseExpr(t);
        if v.Ok? && At0(v.rest, Colon) {
          Next(v.rest);
          ExprAgrees(v.rest.tl);
        }
      }
      PairItem(t);
    }
  }

  lemma UnpackedItem(t: Toks)
    requires At0(t, DStar) && SameExpr(ReadExpression(Rest(t)), G.ParseExpr(Rest(t)))
    ensures SameItem(ReadItem(t), G.ParseDictItem(t))
  {
    hide ReadExpression, G.ParseExpr, Emit;
  }

  lemma PairItem(t: Toks)
    requires !At0(t, DStar)
    requires match G.ParseExpr(t)
             case Err => true
             case Ok(_, k) =>
               && !At0(t, Star)
               && SameExpr(ReadExpression(t), G.ParseExpr(t))
               && (At0(k, Colon) ==> SameExpr(ReadExpression(Rest(k)), G.ParseExpr(Rest(k))))
    ensures SameItem(ReadItem(t), G.ParseDictItem(t))
  {
    hide ReadExpression, G.ParseExpr, Emit, EmitDictItem;
    match ReadItem(t)
    case Ok(KeyItem(k, Some(v)), _) => PairEmits(k, v);
    case _ =>
  }

  lemma PairEmits(k: Expression, v: Expression)
    ensures EmitDictItem(V2, KeyItem(k, Some(v))) == [DictItem(Some(Emit(V2, k)), Emit(V2, v))]
  {
    hide Emit;
  }

  /** The v2 parser reads no expression at a star. */
  lemma NoExprAtStar(t: Toks)
    requires At0(t, Star) || At0(t, DStar)
    ensures G.ParseExpr(t) == G.Err
  {
    hide G.CompareTail, G.AndTail, G.OrTail, G.ParseBin, G.ParseUnary;
    NoUnaryAtStar(t);
    NoBin(7, t);
    assert G.ParseCompare(t) == G.Err;
    assert G.ParseNot(t) == G.Err;
    assert G.ParseAnd(t) == G.Err;
    assert G.ParseOr(t) == G.Err;
    assert G.ParseTernary(t) == G.Err;
  }

  lemma NoUnaryAtStar(t: Toks)
    requires At0(t, Star) || At0(t, DStar)
    ensures G.ParseUnary(t) == G.Err
  {
    hide G.TrailerTail;
    assert G.ParseAtom(t) == G.Err;
    assert G.ParseTrailer(t) == G.Err;
  }

  lemma {:induction false} NoBin(L: int, t: Toks)
    requires 7 <= L <= 13 && G.ParseUnary(t) == G.Err
    ensures G.ParseBin(L, t) == G.Err
    decreases 13 - L
  {
    hide G.ParseUnary, G.BinTail;
    if L < 13 {
      NoBin(L + 1, t);
    } else {
      assert G.ParseBin(13, t) == G.ParseUnary(t);
    }
  }

  lemma {:induction false} ItemsAgree(t: Toks)
    requires Shared(t)
    ensures SameItems(MoreItems(t), G.DictTail(t))
    decreases Len(t), 64
  {
    hide ReadItem, G.ParseDictItem, MoreItems, EmitDictItem, EmitDictItems, Shared, Apart, Exit;
    ItemsNone();
    ItemsEnd(t);
    if At0(t, Comma) {
      if At0(t.tl, RBrc) {
        Nothing(t.tl);
      } else {
        Next(t);
        ItemAgrees(t.tl);
        EatDictItem(t.tl);
        var v := G.ParseDictItem(t.tl);
        if v.Ok? {
          ItemsAgree(v.rest);
          ItemsMore(t);
          ItemsCons(ReadItem(t.tl).v, MoreItems(v.rest).0);
        }
      }
    }
  }

  /** An element of a set, where no colon follows. */
  predicate SameSetItem(r: G.Res<Item>, g: G.Res<Expr>) {
    match g
    case Err => true
    case Ok(e, k) =>
      !At0(k, Colon) ==>
        match r
        case Err => false
        case Ok(x, k') => k' == k && EmitSetItem(V2, x) == e && !x.DStarItem? && (x.KeyItem? ==> x.value == None)
  }

  lemma {:induction false} SetItemAgrees(t: Toks)
    requires Shared(t)
    ensures SameSetItem(ReadItem(t), G.ParseStarOrExpr(t))
    decreases Len(t), 62
  {
    hide ReadExpression, G.ParseExpr, Emit, Shared, Apart, Exit;
    if At0(t, Star) {
      Next(t);
      ExprAgrees(t.tl);
    } else if At0(t, DStar) {
      NoExprAtStar(t);
    } else {
      ExprAgrees(t);
    }
  }

  lemma {:induction false} SetItemsAgree(t: Toks)
    requires Shared(t)
    ensures SameSetItems(MoreItems(t), G.EltsTail(RBrc, t))
    decreases Len(t), 64
  {
    hide ReadItem, G.ParseStarOrExpr, MoreItems, EmitSetItem, EmitSetItems, Shared, Apart, Exit;
    ItemsNone();
    ItemsEnd(t);
    if At0(t, Comma) {
      if At0(t.tl, RBrc) {
        Nothing(t.tl);
      } else {
        Next(t);
        SetItemAgrees(t.tl);
        EatStarOrExpr(t.tl);
        var v := G.ParseStarOrExpr(t.tl);
        if v.Ok? {
          SetItemsAgree(v.rest);
          SetGoesOn(v.rest);
          ItemsMore(t);
          if ReadItem(t.tl).Ok? {
            ItemsCons(ReadItem(t.tl).v, MoreItems(v.rest).0);
          }
        }
      }
    }
  }

  lemma SetGoesOn(t: Toks)
    ensures match G.EltsTail(RBrc, t) case Err => true case Ok(_, k) => At0(k, RBrc) ==> !At0(t, Colon)
  {
    hide G.ParseStarOrExpr;
  }

  lemma BraceAtomAt(t: Toks)
    requires At0(t, LBrc)
    ensures G.ParseAtom(t) == G.ParseBraceAtom(Rest(t))
    ensures var (l, r) := ReadItems(Rest(t));
            ReadAtom(t) == if At0(r, RBrc) then G.Ok(BraceLit(l), Rest(r)) else G.Err
  {
    hide G.ParseBraceAtom, ReadItems;
  }

  lemma ItemsAt(u: Toks)
    ensures match ReadItem(u)
            case Err => ReadItems(u) == (List(None, [], [], false), u)
            case Ok(e, k) =>
              var (cs, m) := Comps(k);
              ReadItems(u) ==
                if cs != [] then (List(Some(e), cs, [], false), m)
                else (List(Some(e), [], MoreItems(k).0, At0(MoreItems(k).1, Comma)), Trailing(MoreItems(k).1))
  {
    hide ReadItem, Comps, MoreItems;
  }

  lemma BraceOf(i: Item, cs: seq<CompFor>, more: seq<Item>, comma: bool)
    ensures var isDict := i.DStarItem? || (i.KeyItem? && i.value.Some?);
            var e := EmitAtom(V2, BraceLit(List(Some(i), cs, more, comma)));
            && (cs == [] && isDict ==> e == Dict(EmitDictItem(V2, i) + EmitDictItems(V2, more)))
            && (cs == [] && !isDict ==> e == Set([EmitSetItem(V2, i)] + EmitSetItems(V2, more)))
            && (cs != [] && !isDict ==> e == SetComp(EmitSetItem(V2, i), EmitComps(V2, cs)))
            && (cs != [] && isDict ==> e == DictComp(KeyOf(V2, i), ValueOf(V2, i), EmitComps(V2, cs)))
  {
    hide EmitDictItem, EmitDictItems, EmitSetItem, EmitSetItems, EmitComps, KeyOf, ValueOf;
    var l := List(Some(i), cs, more, comma);
    assert EmitAtom(V2, BraceLit(l)) == EmitBrace(V2, l);
  }

  /** An item that both read, and the dictionary or set that it begins. */
  lemma {:induction false} BraceAgrees(t: Toks)
    requires Shared(t) && At0(t, LBrc)
    ensures SameAtom(ReadAtom(t), G.ParseAtom(t))
    decreases Len(t), 30
  {
    hide ReadItem, ReadItems, MoreItems, G.ParseStarOrExpr, G.ParseExpr, G.ParseBraceAtom, Comps, G.ParseGens,
      G.CompForStart, Shared, Apart, Exit, ReadAtom, G.ParseAtom, EmitAtom;
    Next(t);
    var u := t.tl;
    BraceAtomAt(t);
    if At0(u, RBrc) {
      Nothing(u);
      ItemsAt(u);
      EmptyBrace(t);
    } else if At0(u, DStar) {
      UnpackedAgrees(t);
    } else {
      EatStarOrExpr(u);
      NoStarredKey(t);
      var v := G.ParseStarOrExpr(u);
      if v.Ok? && At0(v.rest, Colon) {
        Unstarred(u);
        ExprAgrees(u);
        PairAgrees(t);
      } else {
        SetAgrees(t);
      }
    }
  }

  lemma NoStarredKey(t: Toks)
    requires Shared(t) && At0(t, LBrc)
    ensures match G.ParseStarOrExpr(Rest(t)) case Err => true case Ok(_, k) => At0(k, Colon) ==> !At0(Rest(t), Star)
  {
    hide G.ParseStarOrExpr, WordTargets;
  }

  lemma Unstarred(u: Toks)
    requires !At0(u, Star)
    ensures G.ParseStarOrExpr(u) == G.ParseExpr(u)
  {
    hide G.ParseExpr;
  }

  lemma EmptyBrace(t: Toks)
    requires At0(t, LBrc) && At0(Rest(t), RBrc)
    ensures G.ParseBraceAtom(Rest(t)) == G.Ok(Dict([]), Rest(Rest(t)))
    ensures EmitAtom(V2, BraceLit(List(None, [], [], false))) == Dict([])
  {
  }

  lemma UnpackedRead(u: Toks)
    requires At0(u, DStar)
    ensures match ReadExpression(Rest(u))
            case Err => ReadItem(u) == G.Err
            case Ok(e, k) => ReadItem(u) == G.Ok(DStarItem(e), k)
  {
    hide ReadExpression;
  }

  lemma {:induction false} UnpackedAgrees(t: Toks)
    requires Shared(t) && At0(t, LBrc) && At0(Rest(t), DStar)
    ensures SameAtom(ReadAtom(t), G.ParseAtom(t))
    decreases Len(t), 29
  {
    hide ReadExpression, G.ParseExpr, MoreItems, G.DictTail, Comps, Emit, EmitDictItem, Shared, Apart, Exit, ReadAtom,
      G.ParseAtom, G.ParseBraceAtom, ReadItems, SameAtom, SameItems, UnpackedTail, G.CompForStart, ReadItem, KeyOf,
      ValueOf, EmitSetItem;
    Next(t);
    var u := t.tl;
    Next(u);
    BraceAtomAt(t);
    UnpackedRead(u);
    ExprAgrees(u.tl);
    EatExpr(u.tl);
    UnpackedBody(u);
    var v := G.ParseExpr(u.tl);
    if v.Ok? {
      ItemsAgree(v.rest);
      KeyEmits(DStarItem(ReadExpression(u.tl).v));
      if !G.CompForStart(v.rest) {
        NoComps(v.rest);
      }
      UnpackedEnd(t, ReadItem(u).v, v.v, v.rest);
    } else {
      NoAtom(ReadAtom(t));
    }
  }

  lemma UnpackedEnd(t: Toks, i: Item, e: Expr, m: Toks)
    requires At0(t, LBrc) && ReadItem(Rest(t)) == G.Ok(i, m) && i.DStarItem?
    requires EmitDictItem(V2, i) == [DictItem(None, e)] && G.ParseAtom(t) == UnpackedTail(e, m)
    requires SameItems(MoreItems(m), G.DictTail(m)) && (G.CompForStart(m) || Comps(m) == ([], m))
    ensures SameAtom(ReadAtom(t), G.ParseAtom(t))
  {
    hide ReadItem, MoreItems, G.DictTail, Comps, G.CompForStart, ReadAtom, G.ParseAtom, G.ParseBraceAtom, ReadItems,
      EmitAtom, EmitDictItem, EmitSetItem, KeyOf, ValueOf, EmitDictItems, EmitSetItems, EmitComps;
    if G.CompForStart(m) {
      NoDictTail(m);
    } else {
      BraceAtomAt(t);
      ItemsAt(t.tl);
      var l := ReadItems(t.tl).0;
      BraceOf(i, l.comp, l.rest, l.comma);
    }
  }

  lemma NoDictTail(t: Toks)
    requires G.CompForStart(t)
    ensures G.DictTail(t) == G.Ok([], t) && !At0(t, RBrc)
  {
  }

  /** What follows the first unpacked mapping of a dictionary. */
  function UnpackedTail(e: Expr, k: Toks): G.Res<Expr> {
    match G.DictTail(k)
    case Err => G.Err
    case Ok(es, m) => if At0(m, RBrc) then G.Ok(Dict([DictItem(None, e)] + es), m.tl) else G.Err
  }

  lemma UnpackedBody(u: Toks)
    requires At0(u, DStar)
    ensures match G.ParseExpr(Rest(u))
            case Err => G.ParseBraceAtom(u) == G.Err
            case Ok(e, k) => G.ParseBraceAtom(u) == UnpackedTail(e, k)
  {
    hide G.ParseExpr, G.DictTail;
  }

  lemma {:induction false} SetAgrees(t: Toks)
    requires Shared(t) && At0(t, LBrc) && !At0(Rest(t), RBrc) && !At0(Rest(t), DStar)
    requires match G.ParseStarOrExpr(Rest(t)) case Err => true case Ok(_, k) => !At0(k, Colon)
    ensures SameAtom(ReadAtom(t), G.ParseAtom(t))
    decreases Len(t), 29
  {
    hide ReadItem, G.ParseStarOrExpr, MoreItems, Comps, G.CompForStart, Shared, Apart, Exit, ReadAtom, G.ParseAtom,
      G.ParseBraceAtom, ReadItems, EmitAtom, EmitSetItem, EmitSetItems, EmitComps, G.EltsTail, G.ParseGens,
      SameSetItem, SameComps, SameSetItems;
    Next(t);
    var u := t.tl;
    SetItemAgrees(u);
    EatStarOrExpr(u);
    var v := G.ParseStarOrExpr(u);
    if v.Ok? {
      if G.CompForStart(v.rest) {
        CompsAgree(v.rest);
        if G.ParseGens(v.rest).Ok? {
          SomeComps(v.rest);
        }
      } else {
        NoComps(v.rest);
        SetItemsAgree(v.rest);
      }
      SetGlue(t);
    } else {
      SetBody(u);
      BraceAtomAt(t);
    }
  }

  lemma SetBody(u: Toks)
    requires !At0(u, RBrc) && !At0(u, DStar)
    ensures match G.ParseStarOrExpr(u)
            case Err => G.ParseBraceAtom(u) == G.Err
            case Ok(e, k) =>
              if At0(k, Colon) then G.ParseBraceAtom(u) == G.ParseDictRest(e, Rest(k))
                else G.ParseBraceAtom(u) == SetTail(e, k)
  {
    hide G.ParseStarOrExpr, G.EltsTail, G.ParseGens, G.CompForStart, G.ParseDictRest;
  }

  /** What follows the first element of a set. */
  function SetTail(e: Expr, k: Toks): G.Res<Expr> {
    if G.CompForStart(k) then
      match G.ParseGens(k)
      case Err => G.Err
      case Ok(gs, m) => if At0(m, RBrc) then G.Ok(SetComp(e, gs), m.tl) else G.Err
    else
      match G.EltsTail(RBrc, k)
      case Err => G.Err
      case Ok(es, m) => if At0(m, RBrc) then G.Ok(Set([e] + es), m.tl) else G.Err
  }

  lemma SetGlue(t: Toks)
    requires At0(t, LBrc) && !At0(Rest(t), RBrc) && !At0(Rest(t), DStar)
    requires SameSetItem(ReadItem(Rest(t)), G.ParseStarOrExpr(Rest(t)))
    requires match G.ParseStarOrExpr(Rest(t))
             case Err => false
             case Ok(_, k) =>
               && !At0(k, Colon)
               && if G.CompForStart(k) then
                    SameComps(Comps(k), G.ParseGens(k)) && (G.ParseGens(k).Ok? ==> Comps(k).0 != [])
                  else Comps(k) == ([], k) && SameSetItems(MoreItems(k), G.EltsTail(RBrc, k))
    ensures SameAtom(ReadAtom(t), G.ParseAtom(t))
  {
    hide ReadItem, G.ParseStarOrExpr, MoreItems, Comps, G.CompForStart, ReadAtom, G.ParseAtom, G.ParseBraceAtom,
      ReadItems, EmitAtom, EmitSetItem, EmitSetItems, EmitComps, G.EltsTail, G.ParseGens, G.ParseDictRest;
    var u := t.tl;
    BraceAtomAt(t);
    ItemsAt(u);
    SetBody(u);
    var (l, r) := ReadItems(u);
    if l.first.Some? {
      BraceOf(l.first.value, l.comp, l.rest, l.comma);
    }
  }

  /** A dictionary, or a comprehension, that begins with a pair. */
  lemma {:induction false} PairAgrees(t: Toks)
    requires Shared(t) && At0(t, LBrc) && !At0(Rest(t), RBrc) && !At0(Rest(t), DStar) && !At0(Rest(t), Star)
    requires SameExpr(ReadExpression(Rest(t)), G.ParseExpr(Rest(t)))
    requires match G.ParseExpr(Rest(t)) case Err => false case Ok(_, k) => At0(k, Colon) && Shared(k) && Len(k) < Len(t)
    ensures SameAtom(ReadAtom(t), G.ParseAtom(t))
    decreases Len(t), 28
  {
    hide ReadExpression, G.ParseExpr, MoreItems, G.DictTail, G.ParseDictRest, Comps, G.CompForStart, Emit, Shared,
      Apart, Exit, ReadAtom, G.ParseAtom, G.ParseBraceAtom, ReadItems, EmitAtom, EmitDictItems, EmitSetItems,
      EmitComps, G.EltsTail, G.ParseGens;
    var k := G.ParseExpr(t.tl).rest;
    Next(k);
    ExprAgrees(k.tl);
    EatExpr(k.tl);
    var w := G.ParseExpr(k.tl);
    if w.Ok? {
      if G.CompForStart(w.rest) {
        CompsAgree(w.rest);
        if G.ParseGens(w.rest).Ok? {
          SomeComps(w.rest);
        }
      } else {
        NoComps(w.rest);
        ItemsAgree(w.rest);
      }
    }
    PairGlue(t, k);
  }

  /** What follows the first value of a dictionary. */
  function PairTail(key: Expr, v: Expr, k: Toks): G.Res<Expr> {
    if G.CompForStart(k) then
      match G.ParseGens(k)
      case Err => G.Err
      case Ok(gs, m) => if At0(m, RBrc) then G.Ok(DictComp(key, v, gs), m.tl) else G.Err
    else
      match G.DictTail(k)
      case Err => G.Err
      case Ok(es, m) => if At0(m, RBrc) then G.Ok(Dict([DictItem(Some(key), v)] + es), m.tl) else G.Err
  }

  lemma PairBody(key: Expr, t: Toks)
    ensures match G.ParseExpr(t)
            case Err => G.ParseDictRest(key, t) == G.Err
            case Ok(v, k) => G.ParseDictRest(key, t) == PairTail(key, v, k)
  {
    hide G.ParseExpr, G.DictTail, G.ParseGens, G.CompForStart;
  }

  lemma KeyEmits(i: Item)
    ensures match i
            case KeyItem(k, Some(v)) =>
              && EmitDictItem(V2, i) == [DictItem(Some(Emit(V2, k)), Emit(V2, v))]
              && KeyOf(V2, i) == Emit(V2, k) && ValueOf(V2, i) == Emit(V2, v)
            case DStarItem(e) => EmitDictItem(V2, i) == [DictItem(None, Emit(V2, e))]
            case _ => true
  {
    hide Emit;
  }

  lemma PairGlue(t: Toks, k: Toks)
    requires At0(t, LBrc) && !At0(Rest(t), RBrc) && !At0(Rest(t), DStar) && !At0(Rest(t), Star)
    requires SameExpr(ReadExpression(Rest(t)), G.ParseExpr(Rest(t)))
    requires match G.ParseExpr(Rest(t)) case Err => false case Ok(_, k') => k' == k && At0(k, Colon)
    requires SameExpr(ReadExpression(Rest(k)), G.ParseExpr(Rest(k)))
    requires match G.ParseExpr(Rest(k))
             case Err => true
             case Ok(_, m) =>
               if G.CompForStart(m) then
                 SameComps(Comps(m), G.ParseGens(m)) && (G.ParseGens(m).Ok? ==> Comps(m).0 != [])
               else Comps(m) == ([], m) && SameItems(MoreItems(m), G.DictTail(m))
    ensures SameAtom(ReadAtom(t), G.ParseAtom(t))
  {
    hide ReadExpression, G.ParseExpr, MoreItems, G.DictTail, G.ParseDictRest, Comps, G.CompForStart, ReadAtom,
      G.ParseAtom, G.ParseBraceAtom, ReadItems, G.ParseGens, G.ParseStarOrExpr, SameAtom, PairTail, SameComps,
      SameItems, KeyOf, ValueOf, EmitDictItem;
    var u := t.tl;
    BraceAtomAt(t);
    Unstarred(u);
    SetBody(u);
    PairBody(G.ParseExpr(u).v, k.tl);
    if G.ParseExpr(k.tl).Ok? {
      PairRead(u, k);
      PairEnd(t, ReadItem(u).v, G.ParseExpr(u).v, G.ParseExpr(k.tl).v, G.ParseExpr(k.tl).rest);
    } else {
      NoAtom(ReadAtom(t));
    }
  }

  lemma NoAtom(r: G.Res<Atom>)
    ensures SameAtom(r, G.Err)
  {
  }

  /** The pair that begins a dictionary. */
  lemma PairRead(u: Toks, k: Toks)
    requires !At0(u, DStar) && !At0(u, Star) && At0(k, Colon)
    requires SameExpr(ReadExpression(u), G.ParseExpr(u)) && SameExpr(ReadExpression(Rest(k)), G.ParseExpr(Rest(k)))
    requires match G.ParseExpr(u) case Err => false case Ok(_, k') => k' == k
    ensures match G.ParseExpr(Rest(k))
            case Err => true
            case Ok(v, m) =>
              match ReadItem(u)
              case Err => false
              case Ok(i, m') => m' == m && Pairs(i, G.ParseExpr(u), v)
  {
    hide ReadExpression, G.ParseExpr, Emit, EmitDictItem, KeyOf, ValueOf;
    match ReadItem(u)
    case Ok(i, _) => KeyEmits(i);
    case _ =>
  }

  predicate Pairs(i: Item, key: G.Res<Expr>, v: Expr) {
    match key
    case Err => false
    case Ok(x, _) =>
      && i.KeyItem? && i.value.Some?
      && EmitDictItem(V2, i) == [DictItem(Some(x), v)] && KeyOf(V2, i) == x && ValueOf(V2, i) == v
  }

  lemma PairEnd(t: Toks, i: Item, x: Expr, v: Expr, m: Toks)
    requires At0(t, LBrc) && ReadItem(Rest(t)) == G.Ok(i, m) && Pairs(i, G.Ok(x, m), v)
    requires G.ParseAtom(t) == PairTail(x, v, m)
    requires if G.CompForStart(m) then SameComps(Comps(m), G.ParseGens(m)) && (G.ParseGens(m).Ok? ==> Comps(m).0 != [])
             else Comps(m) == ([], m) && SameItems(MoreItems(m), G.DictTail(m))
    ensures SameAtom(ReadAtom(t), G.ParseAtom(t))
  {
    hide ReadItem, MoreItems, G.DictTail, Comps, G.CompForStart, ReadAtom, G.ParseAtom, G.ParseBraceAtom, ReadItems,
      EmitAtom, EmitDictItem, EmitSetItem, KeyOf, ValueOf, EmitDictItems, EmitSetItems, EmitComps, G.ParseGens;
    BraceAtomAt(t);
    ItemsAt(t.tl);
    ItemsNone();
    var (l, r) := ReadItems(t.tl);
    BraceOf(i, l.comp, l.rest, l.comma);
  }

  // ----- lists of targets -----

  /** What may follow an element of a list of targets. */
  predicate Closing(k: Toks) {
    At0(k, Comma) || At0(k, RBrk)
  }

  predicate SameTargetExpr(r: G.Res<Expression>, g: G.Res<Expr>) {
    match g
    case Err => true
    case Ok(e, k) =>
      Closing(k) && PlainTarget(e) ==> match r { case Err => false case Ok(x, k') => k' == k && Emit(V2, x) == e }
  }

  predicate SameTargetElem(r: G.Res<Elem>, g: G.Res<Expr>) {
    match g
    case Err => true
    case Ok(e, k) =>
      Closing(k) && PlainTarget(e) ==> match r { case Err => false case Ok(x, k') => k' == k && EmitElem(V2, x) == e }
  }

  predicate SameTargetElems(r: (seq<Elem>, Toks), g: G.Res<seq<Expr>>) {
    match g
    case Err => true
    case Ok(es, k) => At0(k, RBrk) && PlainTargets(es) ==> Trailing(r.1) == k && EmitElems(V2, r.0) == es
  }

  /** A plain target that begins with a name begins nothing else. */
  lemma WordAlone(t: Toks)
    requires AtWord(t)
    requires match G.ParseTargetAtom(t) case Err => false case Ok(e, k) => Closing(k) && PlainTarget(e)
    ensures ReadNamed(t) == G.Err && ReadLambda(t) == G.Err && !IsKw(t, KwNot) && !IsKw(t, KwYield)
  {
    hide G.TargetTail, G.ParseTargetAtom, ReadExpression, PlainTarget;
    var name := Name(G.WordText(t.hd.w));
    NamePrimary(t);
    TailPlain(name, t.tl);
    PlainWord(t.hd.w);
    if At0(t.tl, Walrus) {
      TailAtWalrus(name, t.tl);
    }
    NoLambda(t);
  }

  lemma PlainWord(w: Word)
    requires PlainTarget(Name(G.WordText(w)))
    ensures w != KwNot && w != KwLambda && w != KwYield
  {
  }

  lemma TailAtWalrus(cur: Expr, t: Toks)
    requires At0(t, Walrus)
    ensures G.TargetTail(cur, t) == G.Ok(cur, t)
  {
  }

  /** One operand, read as an expression. */
  function Bare(n: Node): Expression {
    Cond(Disjunction(Conjunction(Compared(Chain(n, [])), []), []), None)
  }

  lemma BareEmits(who: Builder, n: Node)
    ensures Emit(who, Bare(n)) == EmitNode(who, n)
  {
    hide EmitNode;
    var i := Compared(Chain(n, []));
    assert EmitChain(who, Chain(n, [])) == EmitNode(who, n);
    assert EmitInversion(who, i) == EmitNode(who, n);
    assert EmitConjunction(who, Conjunction(i, [])) == EmitNode(who, n);
    assert EmitDisjunction(who, Disjunction(Conjunction(i, []), [])) == EmitNode(who, n);
  }

  lemma BareRead(t: Toks)
    requires ReadNamed(t) == G.Err && ReadLambda(t) == G.Err && !IsKw(t, KwYield)
    requires !IsKw(t, KwNot)
    requires match ReadLevel(7, t) case Err => false case Ok(_, k) => Quiet(k)
    ensures match ReadLevel(7, t) case Err => false case Ok(n, k) => ReadExpression(t) == G.Ok(Bare(n), k)
  {
    hide ReadLevel, ReadNamed, ReadLambda, CmpLinks, AndLinks, OrLinks, ReadBranch, ReadInversion, ReadConjunction,
      ReadDisjunction;
    var n, k := ReadLevel(7, t).v, ReadLevel(7, t).rest;
    NoLinks(k);
    BareDisjunction(t, n, k);
  }

  /** Nothing of the ladder goes on where something closes or separates. */
  lemma NoLinks(k: Toks)
    requires Quiet(k)
    ensures CmpLinks(k) == ([], k) && AndLinks(k) == ([], k) && OrLinks(k) == ([], k) && ReadBranch(k) == (None, k)
  {
    hide ReadLevel, ReadInversion, ReadConjunction, ReadElse;
  }

  lemma BareDisjunction(t: Toks, n: Node, k: Toks)
    requires ReadLevel(7, t) == G.Ok(n, k) && !IsKw(t, KwNot)
    requires CmpLinks(k) == ([], k) && AndLinks(k) == ([], k) && OrLinks(k) == ([], k)
    ensures ReadDisjunction(t) == G.Ok(Disjunction(Conjunction(Compared(Chain(n, [])), []), []), k)
  {
    hide ReadLevel, CmpLinks, AndLinks, OrLinks;
    assert ReadInversion(t) == G.Ok(Compared(Chain(n, [])), k);
    hide ReadInversion;
    assert ReadConjunction(t) == G.Ok(Conjunction(Compared(Chain(n, [])), []), k);
  }

  lemma {:induction false} TargetExprAgrees(t: Toks)
    requires Shared(t) && !At0(t, Star)
    ensures SameTargetExpr(ReadExpression(t), G.ParseTargetAtom(t))
    decreases Len(t), 60
  {
    hide ReadExpression, ReadLevel, ReadNamed, ReadLambda, ReadInversion, G.ParseTargetAtom, Emit, EmitNode, Shared,
      Apart, Exit, PlainTarget;
    var g := G.ParseTargetAtom(t);
    if g.Ok? && Closing(g.rest) && PlainTarget(g.v) {
      Begins(t);
      if t.hd.Nm? {
        WordAlone(t);
      } else {
        NoWord(t);
      }
      OperandAgrees(t);
      BareRead(t);
      BareEmits(V2, ReadLevel(7, t).v);
    }
  }

  lemma NoWord(t: Toks)
    requires !AtWord(t)
    ensures ReadNamed(t) == G.Err && ReadLambda(t) == G.Err && !IsKw(t, KwNot) && !IsKw(t, KwYield)
  {
  }

  lemma {:induction false} TargetElemAgrees(t: Toks)
    requires Shared(t)
    ensures SameTargetElem(ReadElem(t), G.ParseTargetAtom(t))
    decreases Len(t), 62
  {
    hide ReadExpression, Emit, Shared, Apart, Exit, G.ParseTargetAtom, PlainTarget;
    if At0(t, Star) {
      Next(t);
      StarTarget(t);
      if !At0(t.tl, Star) {
        TargetExprAgrees(t.tl);
      }
    } else {
      TargetExprAgrees(t);
    }
  }

  /** What follows an element in a list of targets. */
  function EltsFrom(t: Toks): G.Res<seq<Expr>> {
    if At0(t, Comma) then G.TargetElts(t.tl) else G.Ok([], t)
  }

  lemma EltsStep(t: Toks)
    requires !At0(t, RBrk)
    ensures match G.ParseTargetAtom(t)
            case Err => G.TargetElts(t) == G.Err
            case Ok(e, k) =>
              match EltsFrom(k)
              case Err => G.TargetElts(t) == G.Err
              case Ok(es, m) => G.TargetElts(t) == G.Ok([e] + es, m)
  {
    hide G.ParseTargetAtom;
    var v := G.ParseTargetAtom(t);
    if v.Ok? && !At0(v.rest, Comma) {
      assert [v.v] + [] == [v.v];
    }
  }

  /** A list that closes after some elements has closed or gone on with a comma before. */
  lemma EltsClose(k: Toks)
    ensures match EltsFrom(k) case Err => true case Ok(_, m) => At0(m, RBrk) ==> Closing(k)
  {
    hide G.TargetElts;
  }

  lemma ElemsStep(t: Toks)
    requires At0(t, Comma)
    ensures match ReadElem(Rest(t))
            case Err => MoreElems(t) == ([], t)
            case Ok(e, k) => MoreElems(t) == ([e] + MoreElems(k).0, MoreElems(k).1)
  {
    hide ReadElem;
  }

  lemma {:induction false} TargetEltsAgree(t: Toks)
    requires Shared(t)
    ensures SameTargetElems(MoreElems(t), EltsFrom(t))
    decreases Len(t), 64
  {
    hide ReadElem, G.ParseTargetAtom, G.TargetElts, MoreElems, EmitElem, EmitElems, Shared, Apart, Exit;
    ElemsNone();
    ElemsEnd(t);
    if At0(t, Comma) {
      Next(t);
      if At0(t.tl, RBrk) {
        Nothing(t.tl);
        EltsNone(t.tl);
      } else {
        EatTargetAtom(t.tl);
        EltsStep(t.tl);
        var v := G.ParseTargetAtom(t.tl);
        if v.Ok? {
          TargetElemAgrees(t.tl);
          TargetEltsAgree(v.rest);
          EltsClose(v.rest);
          ElemsStep(t);
          if EltsFrom(v.rest).Ok? {
            PlainCons(v.v, EltsFrom(v.rest).v);
          }
          if ReadElem(t.tl).Ok? {
            ElemsCons(ReadElem(t.tl).v, MoreElems(v.rest).0);
          }
        }
      }
    }
  }

  lemma EltsNone(t: Toks)
    requires At0(t, RBrk)
    ensures G.TargetElts(t) == G.Ok([], t)
  {
  }

  predicate SameTargetList(r: (List<Elem>, Toks), g: G.Res<seq<Expr>>) {
    match g
    case Err => true
    case Ok(es, k) => At0(k, RBrk) && PlainTargets(es) ==> r.1 == k && EmitList(V2, r.0) == ListExpr(es)
  }

  lemma {:induction false} TargetListAgrees(t: Toks)
    requires Shared(t)
    ensures SameTargetList(ReadElems(t), G.TargetElts(t))
    decreases Len(t), 66
  {
    hide ReadElem, G.ParseTargetAtom, G.TargetElts, ReadElems, MoreElems, Comps, EmitElem, EmitElems, EmitList,
      EmitComps, Shared, Apart, Exit;
    if At0(t, RBrk) {
      Nothing(t);
      EmptyElems(t);
      EltsNone(t);
      EmitEmpty();
    } else {
      EatTargetAtom(t);
      EltsStep(t);
      var v := G.ParseTargetAtom(t);
      if v.Ok? {
        TargetElemAgrees(t);
        TargetEltsAgree(v.rest);
        EltsClose(v.rest);
        if EltsFrom(v.rest).Ok? {
          PlainCons(v.v, EltsFrom(v.rest).v);
        }
        if Closing(v.rest) {
          NoComps(v.rest);
          ElemsAt(t);
          if ReadElem(t).Ok? {
            EmitFull(ReadElem(t).v, MoreElems(v.rest).0, At0(MoreElems(v.rest).1, Comma));
          }
        }
      }
    }
  }

  lemma EmitEmpty()
    ensures EmitList(V2, List(None, [], [], false)) == ListExpr([])
  {
  }

  lemma EmitFull(e: Elem, es: seq<Elem>, comma: bool)
    ensures EmitList(V2, List(Some(e), [], es, comma)) == ListExpr([EmitElem(V2, e)] + EmitElems(V2, es))
  {
    hide EmitElem, EmitElems;
  }

  lemma {:induction false} ListTargetAgrees(t: Toks)
    requires Shared(t) && At0(t, LBrk)
    ensures SamePrimary(ReadPrimary(t), Stopped(G.ParseTargetAtom(t)))
    decreases Len(t), 52
  {
    hide ReadPrimary, G.ParseTargetAtom, G.TargetElts, ReadElems, EmitPrimary, EmitList, Exit, Shared;
    Next(t);
    TargetListAgrees(t.tl);
    ListTargetRead(t);
  }

  lemma ListTargetRead(t: Toks)
    requires At0(t, LBrk) && SameTargetList(ReadElems(Rest(t)), G.TargetElts(Rest(t)))
    ensures SamePrimary(ReadPrimary(t), Stopped(G.ParseTargetAtom(t)))
  {
    hide G.TargetElts, ReadElems, EmitPrimary, EmitList, Trailers, ReadAtom, ReadPrimary, G.ParseTargetAtom,
      PlainTarget, PlainTargets, G.ParseAtom;
    ListAtomAt(t);
    TargetListAt(t);
    var r := ReadElems(t.tl);
    if At0(r.1, RBrk) && TargetStop(r.1.tl) {
      NoTrailer(r.1.tl);
      ListPrimary(t, r.0, r.1.tl);
      ListEmits(r.0);
    }
  }

  lemma TargetListAt(t: Toks)
    requires At0(t, LBrk)
    ensures match G.TargetElts(Rest(t))
            case Err => G.ParseTargetAtom(t) == G.Err
            case Ok(es, k) =>
              && (At0(k, RBrk) ==> G.ParseTargetAtom(t) == G.Ok(ListExpr(es), Rest(k)))
              && (!At0(k, RBrk) ==> G.ParseTargetAtom(t) == G.Err)
              && PlainTarget(ListExpr(es)) == PlainTargets(es)
  {
    hide G.TargetElts;
  }

  lemma ListPrimary(t: Toks, l: List<Elem>, k: Toks)
    requires ReadAtom(t) == G.Ok(ListLit(l), k) && Trailers(k) == ([], k)
    ensures ReadPrimary(t) == G.Ok(Primary(ListLit(l), []), k)
  {
    hide ReadAtom, Trailers;
  }

  lemma ListEmits(l: List<Elem>)
    ensures EmitPrimary(V2, Primary(ListLit(l), [])) == EmitList(V2, l)
  {
    hide EmitList;
    assert EmitAtom(V2, ListLit(l)) == EmitList(V2, l);
  }

  // ----- lambdas -----

  /** Parameters that both have read, from the arguments a on. */
  predicate SameParams(ps: (seq<LambdaParam>, Toks), a: Arguments, kwonly: bool, g: G.Res<Arguments>) {
    match g case Err => true case Ok(b, k) => ps.1 == k && EmitParams(V2, ps.0, a, kwonly) == b
  }

  function Params(t: Toks): (seq<LambdaParam>, Toks) {
    var (p, r1) := ReadParam(t);
    var (ps, r2) := MoreParams(r1);
    ([p] + ps, r2)
  }

  /** One parameter: its tokens, and what it does to the arguments read so far. */
  predicate SameParam(p: (LambdaParam, Toks), a: Arguments, kwonly: bool, g: G.Res<(Arguments, bool)>) {
    match g
    case Err => true
    case Ok(s, k) =>
      && p.1 == k
      && EmitParams(V2, [p.0], a, kwonly) == s.0
      && s.1 == (kwonly || p.0.kind == Some(Star))
  }

  lemma EmitParamsCons(p: LambdaParam, ps: seq<LambdaParam>, a: Arguments, kwonly: bool)
    ensures EmitParams(V2, [p] + ps, a, kwonly) ==
            EmitParams(V2, ps, EmitParams(V2, [p], a, kwonly), kwonly || p.kind == Some(Star))
    ensures EmitParams(V2, [], a, kwonly) == a
  {
    hide DefaultOf;
    assert ([p] + ps)[1..] == ps && [p][1..] == [];
  }

  predicate SameDefault(d: (Option<Expression>, Toks), g: G.Res<Option<Expr>>) {
    match g case Err => true case Ok(v, k) => d.1 == k && EmitMaybe(V2, d.0) == v
  }

  lemma {:induction false} DefaultAgrees(t: Toks)
    requires Shared(t)
    ensures SameDefault(ReadDefault(t), G.ParseDefault(t))
    decreases Len(t), 62
  {
    hide ReadExpression, G.ParseExpr, Emit, Shared, Apart, Exit;
    if At0(t, Assign) {
      Next(t);
      ExprAgrees(t.tl);
    }
  }

  /** What one parameter does. */
  lemma EmitOne(p: LambdaParam, a: Arguments, kwonly: bool)
    ensures EmitParams(V2, [p], a, kwonly) ==
            if p.kind == Some(Slash) then a.(posonly := a.args, args := [])
            else if p.kind == Some(Star) then if p.name.Some? then a.(vararg := Some(Param(p.name.value, None))) else a
            else if p.kind.Some? then a.(kwarg := Some(Param(TextOf(p.name), None)))
            else if p.name.None? then a
            else G.AddParam(a, kwonly, Param(p.name.value, None), EmitMaybe(V2, p.default))
  {
    hide EmitMaybe;
    assert [p][1..] == [];
    assert [] + a.args == a.args;
    assert DefaultOf(V2, p) == EmitMaybe(V2, p.default);
  }

  lemma {:induction false} ParamAgrees(a: Arguments, kwonly: bool, t: Toks)
    requires Shared(t) && !At0(t, Colon)
    ensures SameParamAt(a, kwonly, t)
    decreases Len(t), 64
  {
    hide ReadDefault, G.ParseDefault, EmitMaybe, Shared, Apart, Exit, SameParamAt;
    if t.Cons? && t.hd.Nm? {
      Next(t);
      DefaultAgrees(t.tl);
      NamedParam(a, kwonly, t);
    } else if At0(t, Star) || At0(t, DStar) {
      StarParam(a, kwonly, t);
    } else {
      SlashParam(a, kwonly, t);
    }
  }

  predicate SameParamAt(a: Arguments, kwonly: bool, t: Toks) {
    match G.LambdaArg(a, kwonly, t)
    case Err => true
    case Ok(s, k) => At0(k, Comma) || At0(k, Colon) ==> SameParam(ReadParam(t), a, kwonly, G.Ok(s, k))
  }

  lemma NamedParam(a: Arguments, kwonly: bool, t: Toks)
    requires AtWord(t) && SameDefault(ReadDefault(Rest(t)), G.ParseDefault(Rest(t)))
    ensures SameParamAt(a, kwonly, t)
  {
    hide ReadDefault, G.ParseDefault, EmitMaybe, EmitParams, G.WordText;
    EmitOne(ReadParam(t).0, a, kwonly);
  }

  lemma StarParam(a: Arguments, kwonly: bool, t: Toks)
    requires At0(t, Star) || At0(t, DStar)
    ensures SameParamAt(a, kwonly, t)
  {
    hide ReadDefault, G.ParseDefault, EmitMaybe, EmitParams, G.WordText;
    EmitOne(ReadParam(t).0, a, kwonly);
    NoDefault(t.tl);
    if t.tl.Cons? {
      NoDefault(t.tl.tl);
    }
  }

  lemma SlashParam(a: Arguments, kwonly: bool, t: Toks)
    requires !AtWord(t) && !At0(t, Star) && !At0(t, DStar)
    ensures SameParamAt(a, kwonly, t)
  {
    hide ReadDefault, G.ParseDefault, EmitMaybe, EmitParams;
    EmitOne(ReadParam(t).0, a, kwonly);
    if At0(t, Slash) {
      NoDefault(t.tl);
    }
  }

  lemma NoDefault(t: Toks)
    ensures !At0(t, Assign) ==> ReadDefault(t) == (None, t)
  {
    hide ReadExpression;
  }

  lemma {:induction false} ParamsAgree(a: Arguments, kwonly: bool, t: Toks)
    requires Shared(t)
    ensures SameParams(Params(t), a, kwonly, G.LambdaArgs(a, kwonly, t))
    decreases Len(t), 66
  {
    hide ReadParam, MoreParams, G.LambdaArg, EmitParams, Shared, Apart, Exit;
    var (p, r1) := ReadParam(t);
    if At0(t, Colon) {
      NoParam(t, a, kwonly);
    } else {
      ParamAgrees(a, kwonly, t);
      EatLambdaArg(a, kwonly, t);
      var v := G.LambdaArg(a, kwonly, t);
      if v.Ok? {
        if At0(v.rest, Comma) || At0(v.rest, Colon) {
          EmitParamsCons(p, MoreParams(r1).0, a, kwonly);
          MoreParamsAgree(v.v.0, v.v.1, v.rest);
        }
      }
    }
  }

  lemma NoParam(t: Toks, a: Arguments, kwonly: bool)
    requires At0(t, Colon)
    ensures Params(t).1 == t && EmitParams(V2, Params(t).0, a, kwonly) == a
  {
    hide ReadExpression, DefaultOf, EmitParams, ReadDefault;
    NoDefault(t);
    assert ReadParam(t) == (LambdaParam(None, None, None), t);
    assert MoreParams(t) == ([], t);
    assert Params(t).0 == [LambdaParam(None, None, None)];
    EmitOne(LambdaParam(None, None, None), a, kwonly);
  }

  lemma {:induction false} MoreParamsAgree(a: Arguments, kwonly: bool, t: Toks)
    requires Shared(t)
    ensures SameParams(MoreParams(t), a, kwonly, G.LambdaNext(a, kwonly, t))
    decreases Len(t), 65
  {
    hide ReadParam, G.LambdaArgs, EmitParams, Shared, Apart, Exit;
    EmitParamsCons(LambdaParam(None, None, None), [], a, kwonly);
    if At0(t, Comma) {
      Next(t);
      ParamsAgree(a, kwonly, t.tl);
    }
  }

  lemma {:induction false} LambdaAgrees(t: Toks)
    requires Shared(t) && IsKw(t, KwLambda)
    ensures SameExpr(ReadLambda(t), G.ParseLambda(t))
    decreases Len(t), 34
  {
    hide ReadParam, MoreParams, ReadExpression, G.LambdaArgs, G.ParseExpr, EmitParams, Emit, Shared, Apart, Exit;
    Next(t);
    ParamsAgree(G.NO_ARGS, false, t.tl);
    EatLambdaArgs(G.NO_ARGS, false, t.tl);
    var v := G.LambdaArgs(G.NO_ARGS, false, t.tl);
    if v.Ok? && At0(v.rest, Colon) {
      Next(v.rest);
      ExprAgrees(v.rest.tl);
      LambdaGlue(t);
    } else {
      NoLambdaAt(t);
    }
  }

  lemma NoLambdaAt(t: Toks)
    requires IsKw(t, KwLambda)
    requires match G.LambdaArgs(G.NO_ARGS, false, Rest(t)) case Err => true case Ok(_, k) => !At0(k, Colon)
    ensures G.ParseLambda(t) == G.Err
  {
    hide G.LambdaArgs;
  }

  lemma LambdaGlue(t: Toks)
    requires IsKw(t, KwLambda)
    requires SameParams(Params(Rest(t)), G.NO_ARGS, false, G.LambdaArgs(G.NO_ARGS, false, Rest(t)))
    requires match G.LambdaArgs(G.NO_ARGS, false, Rest(t))
             case Err => false
             case Ok(_, k) => At0(k, Colon) && SameExpr(ReadExpression(Rest(k)), G.ParseExpr(Rest(k)))
    ensures SameExpr(ReadLambda(t), G.ParseLambda(t))
  {
    hide ReadParam, MoreParams, ReadExpression, G.LambdaArgs, G.ParseExpr, EmitParams;
    match ReadLambda(t)
    case Err =>
    case Ok(x, _) => LambdaOfEmits(Params(t.tl).0, x.lbody);
  }

  lemma LambdaOfEmits(ps: seq<LambdaParam>, b: Expression)
    ensures Emit(V2, LambdaOf(ps, b)) == Lambda(EmitParams(V2, ps, G.NO_ARGS, false), Emit(V2, b))
  {
    hide EmitParams;
  }

  // ----- at an await -----

  predicate Signed(u: Toks) {
    u.Cons? && G.UnaryAt(u.hd).Some?
  }

  /** The operand of an await begins with a sign, or is the base of a power. */
  predicate Departs(u: Toks) {
    Signed(u) || (match G.ParseTrailer(u) case Err => false case Ok(_, k) => At0(k, DStar))
  }

  predicate SameAwait(t: Toks) {
    match G.ParseUnary(t)
    case Err => false
    case Ok(e, k) => match ReadFactor(t) { case Err => false case Ok(n, k') => k' == k && EmitNode(V2, n) == e }
  }

  /** Where the v2 parser reads an await, the legacy grammar reads the same exactly when its operand is a
      primary that no `**` follows. */
  lemma {:induction false} AwaitExactly(u: Toks)
    requires Shared(u)
    ensures var t := Cons(Nm(KwAwait), u); G.ParseUnary(t).Ok? ==> (SameAwait(t) <==> !Departs(u))
  {
    hide G.ParseTrailer, G.ParseUnary, EmitNode, Shared, Exit, ReadFactor, Departs, SameAwait;
    NotAwait(u);
    if u.Cons? && G.UnaryAt(u.hd).Some? {
      AwaitSign(u);
    } else {
      PrimaryAgrees(u);
      EatTrailer(u);
      var v := G.ParseTrailer(u);
      if v.Ok? && At0(v.rest, DStar) {
        Next(v.rest);
        UnaryAgrees(v.rest.tl);
      }
      AwaitPrimary(u);
    }
  }

  lemma NotAwait(u: Toks)
    requires Shared(u)
    ensures !IsKw(u, KwAwait)
  {
    hide StarredKey, WordTargets;
  }

  lemma AwaitSign(u: Toks)
    requires Signed(u)
    ensures Departs(u) && !SameAwait(Cons(Nm(KwAwait), u))
  {
    hide G.ParseTrailer, G.ParseUnary, EmitNode, Trailers;
    assert ReadAtom(u) == G.Err;
    hide ReadAtom;
    assert ReadPrimary(u) == G.Err;
    hide ReadPrimary;
    var t := Cons(Nm(KwAwait), u);
    assert IsKw(t, KwAwait) && t.tl == u;
    assert ReadFactor(t) == ReadPower(t) == G.Err;
  }

  /** What both read at an await of no signed operand. */
  lemma AwaitRead(u: Toks)
    requires !IsKw(u, KwAwait) && !Signed(u)
    ensures G.ParseUnary(Cons(Nm(KwAwait), u)) ==
      match G.ParsePower(u) case Err => G.Err case Ok(e, k) => G.Ok(Await(e), k)
    ensures ReadFactor(Cons(Nm(KwAwait), u)) == ReadPower(Cons(Nm(KwAwait), u))
  {
    hide G.ParsePower, ReadPower;
    assert G.ParseUnary(u) == G.ParsePower(u);
  }

  lemma AwaitPrimary(u: Toks)
    requires !IsKw(u, KwAwait) && !Signed(u)
    requires SamePrimary(ReadPrimary(u), G.ParseTrailer(u))
    requires match G.ParseTrailer(u)
             case Err => true
             case Ok(_, k) => At0(k, DStar) ==> SameNode(ReadFactor(Rest(k)), G.ParseUnary(Rest(k)))
    ensures var t := Cons(Nm(KwAwait), u); G.ParseUnary(t).Ok? ==> (SameAwait(t) <==> !Departs(u))
  {
    hide G.ParseTrailer, G.ParseUnary, EmitPrimary, ReadPrimary, ReadFactor, EmitNode;
    AwaitRead(u);
    match ReadPrimary(u)
    case Err =>
    case Ok(p, k) =>
      PowerEmits(p, None);
      if At0(k, DStar) && ReadFactor(k.tl).Ok? {
        PowerEmits(p, Some(ReadFactor(k.tl).v));
      }
  }

  lemma PowerEmits(p: Primary, x: Option<Node>)
    ensures var base := Await(EmitPrimary(V2, p));
            EmitNode(V2, Power(true, p, x)) == if x.None? then base else BinOp(Pow, base, EmitNode(V2, x.value))
  {
    hide EmitPrimary;
  }
}
