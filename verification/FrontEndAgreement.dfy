/** The two front ends on whole expressions: on which text they read the same, and when they make the same
    tree of it. */
module FrontEndAgreement {
  import opened Tokens
  import opened Ast
  import G = Grammar
  import opened Consumption
  import opened LegacyGrammar
  import opened LegacyEmit
  import EmitterTrees
  import opened FrontEnds
  import Descent
  import RoundTrip

  /** The legacy tree is the v2 parser's tree, from the same tokens, exactly if the parts that the legacy
      grammar collects are regular. */
  predicate AgreeExactly(r: G.Res<Expression>, g: G.Res<Expr>) {
    match g
    case Err => true
    case Ok(e, k) =>
      match r
      case Err => false
      case Ok(x, k') => k' == k && (Emit(Legacy, x) == e <==> EmitterTrees.Regular(x))
  }

  lemma FrontEndsAgreeExactly(t: Toks)
    requires Shared(t)
    ensures AgreeExactly(ReadExpression(t), G.ParseExpr(t))
  {
    hide Emit, EmitterTrees.Regular, ReadExpression, G.ParseExpr;
    ExprAgrees(t);
    match ReadExpression(t)
    case Err =>
    case Ok(x, _) => EmitterTrees.SameTreeExactly(x);
  }

  /** The legacy pipeline on a whole text: a tree, when the grammar reads all of it. */
  method LegacyParse(t: Toks) returns (r: Option<Expr>)
    ensures match ReadExpression(t)
            case Err => r == None
            case Ok(x, k) => r == if k.End? then Some(Emit(Legacy, x)) else None
    ensures Shared(t) ==>
              match G.ParseExpr(t)
              case Err => true
              case Ok(e, k) =>
                match ReadExpression(t)
                case Err => false
                case Ok(x, _) => k.End? ==> r.Some? && (r == Some(e) <==> EmitterTrees.Regular(x))
  {
    if Shared(t) {
      FrontEndsAgreeExactly(t);
    }
    var x := ReadExpression(t);
    if x.Err? || x.rest.Cons? {
      return None;
    }
    var e := EmitExpr(x.v);
    r := Some(e);
  }

  // ----- where they part -----

  /** What a name or a number alone is, whoever reads it. */
  function AtomOf(x: Tok): Expr {
    match x case IntLit(d) => Constant(CInt(d)) case Nm(w) => Name(G.WordText(w)) case _ => PLACEHOLDER
  }

  predicate ReadsAs(r: G.Res<Expression>, e: Expr, k: Toks) {
    match r case Err => false case Ok(x, k') => k' == k && forall who: Builder :: Emit(who, x) == e
  }

  lemma Alone(t: Toks)
    requires t.Cons? && (t.hd.IntLit? || AtPlainName(t)) && Quiet(Rest(t))
    ensures G.ParseExpr(t) == G.Ok(AtomOf(t.hd), Rest(t))
    ensures ReadsAs(ReadExpression(t), AtomOf(t.hd), Rest(t))
  {
    hide G.ParseExpr, G.ParseAt, ReadExpression, Wrap, Bare, Emit;
    WordFirst(t);
    LegacyAlone(t);
  }

  /** A name, though it may be a word of the language, or a number, before what binds less than a conditional. */
  lemma WordFirst(t: Toks)
    requires t.Cons? && (t.hd.IntLit? || AtPlainName(t) || IsKw(t, KwIf))
    requires Descent.Binds(Rest(t)) < 2 && !(AtPlainName(t) && At0(Rest(t), Walrus))
    ensures G.ParseExpr(t) == G.Ok(AtomOf(t.hd), Rest(t))
  {
    hide G.ParseAt, G.ParseAtom, G.ParseExpr, G.WordText;
    var e := AtomOf(t.hd);
    V2Atom(t);
    RoundTrip.Levels(t, G.Ok(e, t.tl));
    Descent.Down(16, 2, t, Some(e), t.tl);
    Descent.Stops(2, e, t.tl);
    TernaryFirst(t);
  }

  lemma TernaryFirst(t: Toks)
    requires t.Cons? && !IsKw(t, KwYield) && !IsKw(t, KwLambda) && !(AtPlainName(t) && At0(Rest(t), Walrus))
    ensures G.ParseExpr(t) == G.ParseAt(2, t)
  {
    hide G.ParseTernary;
  }

  lemma V2Atom(t: Toks)
    requires t.Cons? && (t.hd.IntLit? || AtPlainName(t) || IsKw(t, KwIf))
    ensures G.ParseAtom(t) == G.Ok(AtomOf(t.hd), t.tl)
  {
  }

  lemma LegacyAlone(t: Toks)
    requires t.Cons? && (t.hd.IntLit? || AtPlainName(t)) && Quiet(Rest(t))
    ensures ReadsAs(ReadExpression(t), AtomOf(t.hd), Rest(t))
  {
    hide ReadLevel, ReadExpression, ReadPrimary, Emit, EmitNode, Wrap, Bare;
    var a := LegacyAtom(t);
    NoTrailer(t.tl);
    AtomPrimary(t, a);
    Operand(7, t);
    NotNamed(t);
    NoLambda(t);
    BareRead(t);
    forall who: Builder ensures Emit(who, Bare(Wrap(7, Primary(a, [])))) == AtomOf(t.hd) {
      BareEmits(who, Wrap(7, Primary(a, [])));
      WrapEmits(who, 7, Primary(a, []));
      AtomEmits(who, t, a);
    }
  }

  function LegacyAtom(t: Toks): Atom {
    match t case Cons(IntLit(d), _) => Number(CInt(d)) case Cons(Nm(w), _) => AtomName(w) case _ => Ellipsis
  }

  lemma AtomPrimary(t: Toks, a: Atom)
    requires t.Cons? && (t.hd.IntLit? || AtPlainName(t)) && a == LegacyAtom(t) && Trailers(Rest(t)) == ([], Rest(t))
    ensures ReadPrimary(t) == G.Ok(Primary(a, []), Rest(t))
  {
    hide Trailers;
  }

  lemma AtomEmits(who: Builder, t: Toks, a: Atom)
    requires t.Cons? && (t.hd.IntLit? || AtPlainName(t)) && a == LegacyAtom(t)
    ensures EmitPrimary(who, Primary(a, [])) == AtomOf(t.hd)
  {
    assert EmitAtom(who, a) == AtomOf(t.hd);
  }

  lemma NotNamed(t: Toks)
    requires !At0(Rest(t), Walrus)
    ensures ReadNamed(t) == G.Err
  {
  }

  /** `if := 3`: a named expression in the one; in the other a name, with the rest left over. */
  lemma IfNamed(d: string)
    ensures var t := Cons(Nm(KwIf), Cons(Walrus, Cons(IntLit(d), End)));
            && G.ParseExpr(t) == G.Ok(Name("if"), Rest(t))
            && ReadsAs(ReadExpression(t), NamedExpr(Name("if"), Constant(CInt(d))), End)
  {
    hide ReadExpression, Emit, G.ParseExpr;
    var t := Cons(Nm(KwIf), Cons(Walrus, Cons(IntLit(d), End)));
    WordFirst(t);
    Alone(t.tl.tl);
    NamedFirst(t, ReadExpression(t.tl.tl).v, End);
  }

  lemma NamedFirst(t: Toks, x: Expression, k: Toks)
    requires t.Cons? && t.hd.Nm? && t.hd.w != KwYield && At0(Rest(t), Walrus)
    requires ReadExpression(Rest(Rest(t))) == G.Ok(x, k)
    ensures ReadExpression(t) == G.Ok(Named(t.hd.w, x), k)
    ensures forall who: Builder :: Emit(who, Named(t.hd.w, x)) == NamedExpr(Name(G.WordText(t.hd.w)), Emit(who, x))
  {
    hide ReadLambda, ReadBody, G.WordText;
    assert ReadNamed(t) == G.Ok(Named(t.hd.w, x), k) by { hide ReadExpression; }
    hide ReadNamed;
  }

  /** `{*x: 1}`: a dictionary to the one, no expression to the other. */
  lemma StarredKeyRead(x: string, d: string)
    ensures var t := Cons(LBrc, Cons(Star, Cons(Nm(Ident(x)), Cons(Colon, Cons(IntLit(d), Cons(RBrc, End))))));
            && G.ParseAtom(t) == G.Ok(Dict([DictItem(Some(Starred(Name(x))), Constant(CInt(d)))]), End)
            && ReadAtom(t) == G.Err
  {
    hide G.ParseExpr, ReadExpression, ReadAtom, G.ParseAtom, Emit;
    var close := Cons(RBrc, End);
    var k := Cons(Colon, Cons(IntLit(d), close));
    var u := Cons(Nm(Ident(x)), k);
    Alone(u);
    Alone(k.tl);
    StarKeyV2(Cons(LBrc, Cons(Star, u)), k, close, Name(x), Constant(CInt(d)));
    StarKeyLegacy(Cons(LBrc, Cons(Star, u)), k, ReadExpression(u).v);
  }

  lemma StarKeyV2(t: Toks, k: Toks, close: Toks, x: Expr, v: Expr)
    requires At0(t, LBrc) && At0(Rest(t), Star) && At0(k, Colon) && At0(close, RBrc)
    requires G.ParseExpr(Rest(Rest(t))) == G.Ok(x, k) && G.ParseExpr(Rest(k)) == G.Ok(v, close)
    ensures G.ParseAtom(t) == G.Ok(Dict([DictItem(Some(Starred(x)), v)]), Rest(close))
  {
    hide G.ParseExpr, G.ParseAtom, G.ParseBraceAtom, G.ParseDictRest, ReadAtom, ReadItems, G.DictTail,
      G.ParseStarOrExpr, G.EltsTail, G.ParseGens, G.CompForStart, SetTail;
    BraceAtomAt(t);
    StarredFirst(t.tl);
    SetBody(t.tl);
    PairBody(Starred(x), k.tl);
    DictEnds(close);
    assert [DictItem(Some(Starred(x)), v)] + [] == [DictItem(Some(Starred(x)), v)];
  }

  lemma StarredFirst(t: Toks)
    requires At0(t, Star)
    ensures G.ParseStarOrExpr(t) == match G.ParseExpr(Rest(t)) case Err => G.Err case Ok(e, k) => G.Ok(Starred(e), k)
  {
    hide G.ParseExpr;
  }

  lemma DictEnds(t: Toks)
    requires At0(t, RBrc)
    ensures G.DictTail(t) == G.Ok([], t) && !G.CompForStart(t)
  {
  }

  lemma StarKeyLegacy(t: Toks, k: Toks, x: Expression)
    requires At0(t, LBrc) && At0(Rest(t), Star) && At0(k, Colon)
    requires ReadExpression(Rest(Rest(t))) == G.Ok(x, k)
    ensures ReadAtom(t) == G.Err
  {
    hide ReadExpression, ReadAtom, G.ParseAtom, G.ParseBraceAtom, ReadItems, Comps, MoreItems;
    BraceAtomAt(t);
    assert ReadItem(t.tl) == G.Ok(StarItem(x), k);
    hide ReadItem;
    ItemsAt(t.tl);
    NoComps(k);
    ItemsEnd(k);
  }

  /** `for None in`: a name to the one, a constant to the other, whoever makes the tree. */
  lemma NoneTarget(t: Toks)
    requires IsKw(t, KwNone) && IsKw(Rest(t), KwIn)
    ensures G.ParseTargetAtom(t) == G.Ok(Name("None"), Rest(t))
    ensures match ReadTarget(t)
            case Err => false
            case Ok(a, k) => k == Rest(t) && forall who: Builder :: EmitTarget(who, a) == Constant(CNone)
  {
    hide ReadLevel, EmitNode, ReadPrimary, Trailers, G.ParseTargetAtom, G.TargetTail, Wrap, EmitPrimary;
    NamePrimary(t);
    NoneTail(t.tl);
    NoTrailer(t.tl);
    Operand(7, t);
    var p := Primary(AtomName(KwNone), []);
    forall who: Builder ensures EmitNode(who, Wrap(7, p)) == Constant(CNone) {
      WrapEmits(who, 7, p);
      NoneEmits(who);
    }
  }

  lemma NoneTail(k: Toks)
    requires IsKw(k, KwIn)
    ensures G.TargetTail(Name("None"), k) == G.Ok(Name("None"), k)
  {
  }

  lemma NoneEmits(who: Builder)
    ensures EmitPrimary(who, Primary(AtomName(KwNone), [])) == Constant(CNone)
  {
    assert EmitAtom(who, AtomName(KwNone)) == EmitWord(KwNone);
  }

  /** `a[i,]`: an index to the one, a tuple to the other. */
  lemma OneComma(a: Expr, i: string)
    ensures var t := Cons(LBrk, Cons(Nm(Ident(i)), Cons(Comma, Cons(RBrk, End))));
            && G.TrailerTail(a, t) == G.Ok(Subscript(a, Tuple([Name(i)])), End)
            && Trailers(t).1 == End
            && EmitTrailers(Legacy, a, Trailers(t).0) == Subscript(a, Name(i))
  {
    hide G.ParseExpr, ReadExpression, G.TrailerTail, Trailers, EmitTrailers, Emit;
    var k := Cons(Comma, Cons(RBrk, End));
    var u := Cons(Nm(Ident(i)), k);
    Alone(u);
    CommaV2(Cons(LBrk, u), k, a, Name(i));
    CommaLegacy(Cons(LBrk, u), k, a, ReadExpression(u).v);
  }

  lemma CommaV2(t: Toks, k: Toks, a: Expr, i: Expr)
    requires At0(t, LBrk) && !At0(Rest(t), Star) && !At0(Rest(t), Colon) && !i.Starred?
    requires k == Cons(Comma, Cons(RBrk, End)) && G.ParseExpr(Rest(t)) == G.Ok(i, k)
    ensures G.TrailerTail(a, t) == G.Ok(Subscript(a, Tuple([i])), End)
  {
    hide G.ParseExpr, G.TrailerTail, G.ParseSubscriptItem, G.SubscriptTail, G.ParseSubscriptBody;
    IndexFirst(t.tl);
    TailEnds(k);
    BodyAt(t.tl);
    assert [i] + [] == [i];
    TailOne(t, a, Tuple([i]));
  }

  lemma IndexFirst(t: Toks)
    requires !At0(t, Star) && !At0(t, Colon)
    requires match G.ParseExpr(t) case Err => false case Ok(_, k) => !At0(k, Colon)
    ensures G.ParseSubscriptItem(t) == G.ParseExpr(t)
  {
    hide G.ParseExpr, G.ParseSlice;
  }

  lemma TailEnds(k: Toks)
    requires At0(k, Comma) && At0(Rest(k), RBrk)
    ensures G.SubscriptTail(k) == G.Ok([], Rest(k))
  {
  }

  lemma TailOne(t: Toks, a: Expr, s: Expr)
    requires At0(t, LBrk) && G.ParseSubscriptBody(Rest(t)) == G.Ok(s, Cons(RBrk, End))
    ensures G.TrailerTail(a, t) == G.Ok(Subscript(a, s), End)
  {
    hide G.ParseSubscriptBody;
    assert G.TrailerTail(Subscript(a, s), End) == G.Ok(Subscript(a, s), End);
  }

  lemma CommaLegacy(t: Toks, k: Toks, a: Expr, x: Expression)
    requires At0(t, LBrk) && !At0(Rest(t), Star)
    requires k == Cons(Comma, Cons(RBrk, End)) && ReadExpression(Rest(t)) == G.Ok(x, k)
    ensures Trailers(t).1 == End && EmitTrailers(Legacy, a, Trailers(t).0) == Subscript(a, Emit(Legacy, x))
  {
    hide ReadExpression, Emit, Trailers, EmitTrailers, Subs, ReadTrailer;
    assert ReadSub(t.tl) == G.Ok(PlainSub(x, None), k);
    hide ReadSub;
    SubsEnd(k);
    TrailerAt(t);
    assert [PlainSub(x, None)] + [] == [PlainSub(x, None)];
    TrailersOne(t, a, SubOf([PlainSub(x, None)], true));
    assert EmitSub(Legacy, PlainSub(x, None)) == Emit(Legacy, x);
  }

  lemma SubsEnd(k: Toks)
    requires At0(k, Comma) && At0(Rest(k), RBrk)
    ensures Subs(k) == ([], k)
  {
    Nothing(k.tl);
    hide ReadSub;
  }

  lemma TrailersOne(t: Toks, a: Expr, x: Trailer)
    requires ReadTrailer(t) == G.Ok(x, End)
    ensures Trailers(t) == ([x], End)
    ensures EmitTrailers(Legacy, a, [x]) == ApplyTrailer(Legacy, a, x)
  {
    hide ReadTrailer, ApplyTrailer;
    NoTrailer(End);
    assert [x][1..] == [];
    assert [x] + [] == [x];
  }

  /** `yield (*x),`: the trees differ inside, and the comma makes up for it. */
  lemma CommaMakesUp(x: Expression)
    requires EmitterTrees.Regular(x)
    ensures var p := Bare(Wrap(7, Primary(ParenLit(List(Some(Elem(true, x)), [], [], false)), [])));
            var y := Yielded(Val(Some(Elem(false, p)), [], true));
            && Emit(Legacy, p) == Tuple([Starred(Emit(Legacy, x))]) && Emit(V2, p) == Starred(Emit(V2, x))
            && Emit(Legacy, y) == Emit(V2, y)
  {
    hide Emit, EmitNode, Wrap, Bare, EmitterTrees.Regular;
    var l := List(Some(Elem(true, x)), [], [], false);
    var p := Bare(Wrap(7, Primary(ParenLit(l), [])));
    EmitterTrees.SameTreeExactly(x);
    forall who: Builder ensures Emit(who, p) == EmitParen(who, l) {
      BareEmits(who, Wrap(7, Primary(ParenLit(l), [])));
      WrapEmits(who, 7, Primary(ParenLit(l), []));
      ParenEmits(who, l);
    }
    LoneStar(x);
    YieldOne(p);
  }

  lemma ParenEmits(who: Builder, l: List<Elem>)
    ensures EmitPrimary(who, Primary(ParenLit(l), [])) == EmitParen(who, l)
  {
    hide EmitParen;
    assert EmitAtom(who, ParenLit(l)) == EmitParen(who, l);
  }

  lemma LoneStar(x: Expression)
    ensures var l := List(Some(Elem(true, x)), [], [], false);
            EmitParen(Legacy, l) == Tuple([Starred(Emit(Legacy, x))]) && EmitParen(V2, l) == Starred(Emit(V2, x))
  {
    hide Emit;
    assert EmitElem(Legacy, Elem(true, x)) == Starred(Emit(Legacy, x));
    assert [Starred(Emit(Legacy, x))] + EmitElems(Legacy, []) == [Starred(Emit(Legacy, x))];
  }

  lemma YieldOne(p: Expression)
    ensures var y := Yielded(Val(Some(Elem(false, p)), [], true));
            Emit(Legacy, y) == Yield(Some(Emit(Legacy, p))) && Emit(V2, y) == Yield(Some(Tuple([Emit(V2, p)])))
  {
    var v := Val(Some(Elem(false, p)), [], true);
    assert Emit(Legacy, Yielded(v)) == EmitYield(Legacy, v) && Emit(V2, Yielded(v)) == EmitYield(V2, v);
    hide Emit;
    assert EmitElem(V2, Elem(false, p)) == Emit(V2, p) && EmitElem(Legacy, Elem(false, p)) == Emit(Legacy, p);
    assert [Emit(V2, p)] + EmitElems(V2, []) == [Emit(V2, p)];
  }
}
