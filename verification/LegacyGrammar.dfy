/** The expression rules of the legacy grammar (legacy/parser/grammar_expr.go), with the trees that they
    collect.

    An alternative is taken when it can be read, in the order in which the rule lists them; an optional
    part or a repetition that fails reads nothing.  A word of the language is a name like any other
    (lex/scanner.go), so that a rule that asks for a name takes it. */
module LegacyGrammar {
  import opened Tokens
  import opened Ast
  import G = Grammar

  // ----- trees -----

  datatype Expression =
    | Yielded(y: YieldExpr)
    | Named(name: Word, value: Expression)
    | LambdaOf(params: seq<LambdaParam>, lbody: Expression)
    | Cond(body: Disjunction, branch: Option<Branch>)
  datatype Branch = Branch(test: Disjunction, orelse: Expression)
  datatype Disjunction = Disjunction(head: Conjunction, tail: seq<Conjunction>)
  datatype Conjunction = Conjunction(head: Inversion, tail: seq<Inversion>)
  datatype Inversion = Negated(inv: Inversion) | Compared(comp: Chain)
  datatype Chain = Chain(head: Node, tail: seq<CmpRight>)
  datatype CmpRight = CmpRight(notIn: bool, isOp: bool, isNot: bool, op: Tok, rhs: Node)
  /** A level of binary operators (bit-or to multiplicative), a sign, or a power. */
  datatype Node =
    | Level(head: Node, tail: seq<Link>)
    | Sign(op: UnaryKind, inner: Node)
    | Power(awaited: bool, primary: Primary, exp: Option<Node>)
  datatype Link = Link(op: Operator, rhs: Node)
  datatype Primary = Primary(atom: Atom, trailers: seq<Trailer>)
  datatype Trailer = Attr(attr: string) | CallOf(args: List<Argument>) | SubOf(items: seq<Subscripted>, comma: bool)
  /** The contents of brackets: a first item, then clauses of a comprehension or more items, and whether a
      comma ends them. */
  datatype List<T> = List(first: Option<T>, comp: seq<CompFor>, rest: seq<T>, comma: bool)
  datatype Argument =
    DStarArg(e: Expression) | StarArg(e: Expression) | NamedArg(name: string, e: Expression) | PlainArg(e: Expression)
  datatype Subscripted =
    StarSub(e: Expression) | PlainSub(e: Expression, slice: Option<SliceTail>) | BareSub(tail: SliceTail)
  datatype SliceTail = SliceTail(upper: Option<Expression>, step: Option<Option<Expression>>)
  datatype Atom =
    | AtomName(w: Word)
    | Number(c: Const)
    | Strings(parts: seq<Part>)
    | Ellipsis
    | ListLit(elts: List<Elem>)
    | BraceLit(items: List<Item>)
    | ParenLit(elts: List<Elem>)
  datatype Part = Part(kind: StrKind, val: string)
  datatype Elem = Elem(star: bool, e: Expression)
  datatype Item =
    DStarItem(e: Expression) | StarItem(e: Expression) | KeyItem(key: Expression, value: Option<Expression>)
  datatype CompFor = CompFor(isAsync: bool, target: TargetList, iter: Disjunction, ifs: seq<Disjunction>)
  datatype TargetList = TargetList(head: TargetAtom, tail: seq<TargetAtom>, comma: bool)
  datatype TargetAtom = TargetAtom(star: bool, e: Node)
  /** The kind is `/`, `*` or `**`. */
  datatype LambdaParam = LambdaParam(kind: Option<Tok>, name: Option<string>, default: Option<Expression>)
  datatype YieldExpr = FromExpr(e: Expression) | Val(val: Option<Elem>, rest: seq<Elem>, comma: bool)

  // ----- the ladder -----

  function ReadExpression(t: Toks): (r: G.Res<Expression>)
    ensures r.Ok? ==> Len(r.rest) < Len(t)
    decreases Len(t), 30
  {
    if IsKw(t, KwYield) then var (y, r1) := ReadYield(t.tl); G.Ok(Yielded(y), r1)
    else if ReadNamed(t).Ok? then ReadNamed(t)
    else if ReadLambda(t).Ok? then ReadLambda(t)
    else ReadBody(t)
  }

  function ReadBody(t: Toks): (r: G.Res<Expression>)
    ensures r.Ok? ==> Len(r.rest) < Len(t)
    decreases Len(t), 28
  {
    var (b, r1) :- ReadDisjunction(t);
    var (c, r2) := ReadBranch(r1);
    G.Ok(Cond(b, c), r2)
  }

  function ReadNamed(t: Toks): (r: G.Res<Expression>)
    ensures r.Ok? ==> Len(r.rest) < Len(t)
    decreases Len(t), 29
  {
    if t.Cons? && t.hd.Nm? && At0(t.tl, Walrus) then
      assert Len(t) == 1 + Len(t.tl);
      var (v, r1) :- ReadExpression(t.tl.tl);
      G.Ok(Named(t.hd.w, v), r1)
    else G.Err
  }

  function ReadLambda(t: Toks): (r: G.Res<Expression>)
    ensures r.Ok? ==> Len(r.rest) < Len(t)
    decreases Len(t), 29
  {
    if !IsKw(t, KwLambda) then G.Err
    else
      var (p, r1) := ReadParam(t.tl);
      var (ps, r2) := MoreParams(r1);
      var (_, r3) :- G.Expect(r2, Colon);
      var (b, r4) :- ReadExpression(r3);
      G.Ok(LambdaOf([p] + ps, b), r4)
  }

  /** Every part of a parameter may be missing. */
  function ReadParam(t: Toks): (r: (LambdaParam, Toks))
    ensures Len(r.1) <= Len(t)
    decreases Len(t), 32
  {
    var kind := if At0(t, Slash) || At0(t, DStar) || At0(t, Star) then Some(t.hd) else None;
    var t1 := if kind.Some? then t.tl else t;
    var name := if t1.Cons? && t1.hd.Nm? then Some(G.WordText(t1.hd.w)) else None;
    var t2 := if name.Some? then t1.tl else t1;
    assert Len(t1) <= Len(t) && Len(t2) <= Len(t1);
    var (d, r1) := ReadDefault(t2);
    (LambdaParam(kind, name, d), r1)
  }

  function ReadDefault(t: Toks): (r: (Option<Expression>, Toks))
    ensures Len(r.1) <= Len(t)
    decreases Len(t), 31
  {
    if !At0(t, Assign) then (None, t)
    else match ReadExpression(t.tl) case Err => (None, t) case Ok(e, r1) => (Some(e), r1)
  }

  function MoreParams(t: Toks): (r: (seq<LambdaParam>, Toks))
    ensures Len(r.1) <= Len(t)
    decreases Len(t), 33
  {
    if !At0(t, Comma) then ([], t)
    else
      var (p, r1) := ReadParam(t.tl);
      var (ps, r2) := MoreParams(r1);
      ([p] + ps, r2)
  }

  function ReadBranch(t: Toks): (r: (Option<Branch>, Toks))
    ensures Len(r.1) <= Len(t)
    decreases Len(t), 27
  {
    if !IsKw(t, KwIf) then (None, t)
    else match ReadElse(t.tl) case Err => (None, t) case Ok(b, r1) => (Some(b), r1)
  }

  function ReadElse(t: Toks): (r: G.Res<Branch>)
    ensures r.Ok? ==> Len(r.rest) < Len(t)
    decreases Len(t), 31
  {
    var (test, r1) :- ReadDisjunction(t);
    var (_, r2) :- G.Expect(r1, Nm(KwElse));
    var (o, r3) :- ReadExpression(r2);
    G.Ok(Branch(test, o), r3)
  }

  function ReadDisjunction(t: Toks): (r: G.Res<Disjunction>)
    ensures r.Ok? ==> Len(r.rest) < Len(t)
    decreases Len(t), 20
  {
    var (h, r1) :- ReadConjunction(t);
    var (ts, r2) := OrLinks(r1);
    G.Ok(Disjunction(h, ts), r2)
  }

  function OrLinks(t: Toks): (r: (seq<Conjunction>, Toks))
    ensures Len(r.1) <= Len(t)
    decreases Len(t), 19
  {
    if !IsKw(t, KwOr) then ([], t)
    else match ReadConjunction(t.tl)
      case Err => ([], t)
      case Ok(c, r1) => var (cs, r2) := OrLinks(r1); ([c] + cs, r2)
  }

  function ReadConjunction(t: Toks): (r: G.Res<Conjunction>)
    ensures r.Ok? ==> Len(r.rest) < Len(t)
    decreases Len(t), 18
  {
    var (h, r1) :- ReadInversion(t);
    var (ts, r2) := AndLinks(r1);
    G.Ok(Conjunction(h, ts), r2)
  }

  function AndLinks(t: Toks): (r: (seq<Inversion>, Toks))
    ensures Len(r.1) <= Len(t)
    decreases Len(t), 17
  {
    if !IsKw(t, KwAnd) then ([], t)
    else match ReadInversion(t.tl)
      case Err => ([], t)
      case Ok(c, r1) => var (cs, r2) := AndLinks(r1); ([c] + cs, r2)
  }

  function ReadInversion(t: Toks): (r: G.Res<Inversion>)
    ensures r.Ok? ==> Len(r.rest) < Len(t)
    decreases Len(t), 16
  {
    if IsKw(t, KwNot) && ReadInversion(t.tl).Ok? then
      var i := ReadInversion(t.tl);
      G.Ok(Negated(i.v), i.rest)
    else
      var (h, r1) :- ReadLevel(7, t);
      var (ts, r2) := CmpLinks(r1);
      G.Ok(Compared(Chain(h, ts)), r2)
  }

  /** The operator of a comparison: `not in`, `is` with an optional `not`, or one token. */
  function CmpFlags(t: Toks): (r: Option<((bool, bool, bool, Tok), Toks)>)
    ensures r.Some? ==> Len(r.value.1) < Len(t)
  {
    if t.End? then None
    else if IsKw(t, KwNot) then
      if IsKw(t.tl, KwIn) then Some(((true, false, false, t.hd), t.tl.tl)) else None
    else if IsKw(t, KwIs) then
      if IsKw(t.tl, KwNot) then Some(((false, true, true, t.hd), t.tl.tl)) else Some(((false, true, false, t.hd), t.tl))
    else if t.hd.OpEq? || t.hd.OpNe? || t.hd.OpLe? || t.hd.OpGe? || t.hd.OpLt? || t.hd.OpGt? || IsKw(t, KwIn) then
      Some(((false, false, false, t.hd), t.tl))
    else None
  }

  function CmpLinks(t: Toks): (r: (seq<CmpRight>, Toks))
    ensures Len(r.1) <= Len(t)
    decreases Len(t), 15
  {
    match CmpFlags(t)
    case None => ([], t)
    case Some((f, u)) =>
      match ReadLevel(7, u)
      case Err => ([], t)
      case Ok(n, r1) =>
        var (cs, r2) := CmpLinks(r1);
        ([CmpRight(f.0, f.1, f.2, f.3, n)] + cs, r2)
  }

  /** The six list levels, 7 to 12, and the sign level 13 below them. */
  function ReadLevel(L: int, t: Toks): (r: G.Res<Node>)
    ensures r.Ok? ==> Len(r.rest) < Len(t)
    decreases Len(t), 14, if L < 13 then 13 - L else 0
  {
    if L >= 13 then ReadFactor(t)
    else
      var (h, r1) :- ReadLevel(L + 1, t);
      var (ts, r2) := LevelLinks(L, r1);
      G.Ok(Level(h, ts), r2)
  }

  function LevelLinks(L: int, t: Toks): (r: (seq<Link>, Toks))
    ensures Len(r.1) <= Len(t)
    decreases Len(t), 13
  {
    if t.End? || G.OpAt(L, t.hd).None? then ([], t)
    else match ReadLevel(L + 1, t.tl)
      case Err => ([], t)
      case Ok(n, r1) =>
        var (ls, r2) := LevelLinks(L, r1);
        ([Link(G.OpAt(L, t.hd).value, n)] + ls, r2)
  }

  function ReadFactor(t: Toks): (r: G.Res<Node>)
    ensures r.Ok? ==> Len(r.rest) < Len(t)
    decreases Len(t), 12
  {
    if t.Cons? && G.UnaryAt(t.hd).Some? then
      var (n, r1) :- ReadFactor(t.tl);
      G.Ok(Sign(G.UnaryAt(t.hd).value, n), r1)
    else ReadPower(t)
  }

  /** An await, when there is one, is of a primary. */
  function ReadPower(t: Toks): (r: G.Res<Node>)
    ensures r.Ok? ==> Len(r.rest) < Len(t)
    decreases Len(t), 11
  {
    var a := IsKw(t, KwAwait);
    var (p, r1) :- ReadPrimary(if a then t.tl else t);
    if At0(r1, DStar) && ReadFactor(r1.tl).Ok? then
      var n := ReadFactor(r1.tl);
      G.Ok(Power(a, p, Some(n.v)), n.rest)
    else G.Ok(Power(a, p, None), r1)
  }

  // ----- primaries -----

  function ReadPrimary(t: Toks): (r: G.Res<Primary>)
    ensures r.Ok? ==> Len(r.rest) < Len(t)
    decreases Len(t), 10
  {
    var (a, r1) :- ReadAtom(t);
    var (ts, r2) := Trailers(r1);
    G.Ok(Primary(a, ts), r2)
  }

  function Trailers(t: Toks): (r: (seq<Trailer>, Toks))
    ensures Len(r.1) <= Len(t)
    decreases Len(t), 9
  {
    match ReadTrailer(t)
    case Err => ([], t)
    case Ok(x, r1) => var (xs, r2) := Trailers(r1); ([x] + xs, r2)
  }

  function ReadTrailer(t: Toks): (r: G.Res<Trailer>)
    ensures r.Ok? ==> Len(r.rest) < Len(t)
    decreases Len(t), 8
  {
    if At0(t, Dot) then
      var (a, r1) :- G.ParseAttrName(t.tl);
      G.Ok(Attr(a), r1)
    else if At0(t, LPar) then
      var (args, r1) := ReadArgs(t.tl);
      var (_, r2) :- G.Expect(r1, RPar);
      G.Ok(CallOf(args), r2)
    else if At0(t, LBrk) then
      var (i, r1) :- ReadSub(t.tl);
      var (more, r2) := Subs(r1);
      var comma := At0(r2, Comma);
      var (_, r3) :- G.Expect(if comma then r2.tl else r2, RBrk);
      G.Ok(SubOf([i] + more, comma), r3)
    else G.Err
  }

  /** Arguments up to the closing parenthesis. */
  function ReadArgs(t: Toks): (r: (List<Argument>, Toks))
    ensures Len(r.1) <= Len(t)
    decreases Len(t), 45
  {
    match ReadArgument(t)
    case Err => (List(None, [], [], false), t)
    case Ok(a, r1) =>
      var (cs, r2) := Comps(r1);
      if cs != [] then (List(Some(a), cs, [], false), r2)
      else
        var (more, r3) := MoreArgs(r1);
        (List(Some(a), [], more, At0(r3, Comma)), if At0(r3, Comma) then r3.tl else r3)
  }

  function MoreArgs(t: Toks): (r: (seq<Argument>, Toks))
    ensures Len(r.1) <= Len(t)
    decreases Len(t), 44
  {
    if !At0(t, Comma) then ([], t)
    else match ReadArgument(t.tl)
      case Err => ([], t)
      case Ok(a, r1) => var (more, r2) := MoreArgs(r1); ([a] + more, r2)
  }

  function ReadArgument(t: Toks): (r: G.Res<Argument>)
    ensures r.Ok? ==> Len(r.rest) < Len(t)
    decreases Len(t), 43
  {
    if At0(t, DStar) then
      var (e, r1) :- ReadExpression(t.tl);
      G.Ok(DStarArg(e), r1)
    else if At0(t, Star) then
      var (e, r1) :- ReadExpression(t.tl);
      G.Ok(StarArg(e), r1)
    else if ReadNamedArg(t).Ok? then ReadNamedArg(t)
    else
      var (e, r1) :- ReadExpression(t);
      G.Ok(PlainArg(e), r1)
  }

  function ReadNamedArg(t: Toks): (r: G.Res<Argument>)
    ensures r.Ok? ==> Len(r.rest) < Len(t)
    decreases Len(t), 42
  {
    if t.Cons? && t.hd.Nm? && At0(t.tl, Assign) then
      assert Len(t) == 1 + Len(t.tl);
      var (e, r1) :- ReadExpression(t.tl.tl);
      G.Ok(NamedArg(G.WordText(t.hd.w), e), r1)
    else G.Err
  }

  function Subs(t: Toks): (r: (seq<Subscripted>, Toks))
    ensures Len(r.1) <= Len(t)
    decreases Len(t), 44
  {
    if !At0(t, Comma) then ([], t)
    else match ReadSub(t.tl)
      case Err => ([], t)
      case Ok(i, r1) => var (more, r2) := Subs(r1); ([i] + more, r2)
  }

  function ReadSub(t: Toks): (r: G.Res<Subscripted>)
    ensures r.Ok? ==> Len(r.rest) < Len(t)
    decreases Len(t), 43
  {
    if At0(t, Star) then
      var (e, r1) :- ReadExpression(t.tl);
      G.Ok(StarSub(e), r1)
    else match ReadExpression(t)
      case Ok(e, r1) =>
        if At0(r1, Colon) then var (s, r2) := ReadSlice(r1); G.Ok(PlainSub(e, Some(s)), r2)
        else G.Ok(PlainSub(e, None), r1)
      case Err =>
        if At0(t, Colon) then var (s, r2) := ReadSlice(t); G.Ok(BareSub(s), r2) else G.Err
  }

  function ReadSlice(t: Toks): (r: (SliceTail, Toks))
    requires At0(t, Colon)
    ensures Len(r.1) < Len(t)
    decreases Len(t), 42
  {
    var (u, r1) := Maybe(t.tl);
    if At0(r1, Colon) then
      var (s, r2) := Maybe(r1.tl);
      (SliceTail(u, Some(s)), r2)
    else (SliceTail(u, None), r1)
  }

  function Maybe(t: Toks): (r: (Option<Expression>, Toks))
    ensures Len(r.1) <= Len(t)
    decreases Len(t), 41
  {
    match ReadExpression(t) case Err => (None, t) case Ok(e, r1) => (Some(e), r1)
  }

  // ----- atoms -----

  function ReadAtom(t: Toks): (r: G.Res<Atom>)
    ensures r.Ok? ==> Len(r.rest) < Len(t)
    decreases Len(t), 7
  {
    if t.End? then G.Err
    else match t.hd
      case Nm(w) => G.Ok(AtomName(w), t.tl)
      case IntLit(d) => G.Ok(Number(CInt(d)), t.tl)
      case FloatLit(x) => G.Ok(Number(CFloat(x)), t.tl)
      case StrLit(kind, v) => var (ps, r1) := Parts(t.tl); G.Ok(Strings([Part(kind, v)] + ps), r1)
      case Dots => G.Ok(Ellipsis, t.tl)
      case LBrk =>
        var (l, r1) := ReadElems(t.tl);
        var (_, r2) :- G.Expect(r1, RBrk);
        G.Ok(ListLit(l), r2)
      case LBrc =>
        var (l, r1) := ReadItems(t.tl);
        var (_, r2) :- G.Expect(r1, RBrc);
        G.Ok(BraceLit(l), r2)
      case LPar =>
        var (l, r1) := ReadElems(t.tl);
        var (_, r2) :- G.Expect(r1, RPar);
        G.Ok(ParenLit(l), r2)
      case _ => G.Err
  }

  function Parts(t: Toks): (r: (seq<Part>, Toks))
    ensures Len(r.1) <= Len(t)
    decreases Len(t), 0
  {
    if t.Cons? && t.hd.StrLit? then var (ps, r1) := Parts(t.tl); ([Part(t.hd.kind, t.hd.val)] + ps, r1)
    else ([], t)
  }

  /** The contents of a list display or of parentheses. */
  function ReadElems(t: Toks): (r: (List<Elem>, Toks))
    ensures Len(r.1) <= Len(t)
    decreases Len(t), 45
  {
    match ReadElem(t)
    case Err => (List(None, [], [], false), t)
    case Ok(e, r1) =>
      var (cs, r2) := Comps(r1);
      if cs != [] then (List(Some(e), cs, [], false), r2)
      else
        var (more, r3) := MoreElems(r1);
        (List(Some(e), [], more, At0(r3, Comma)), if At0(r3, Comma) then r3.tl else r3)
  }

  function MoreElems(t: Toks): (r: (seq<Elem>, Toks))
    ensures Len(r.1) <= Len(t)
    decreases Len(t), 44
  {
    if !At0(t, Comma) then ([], t)
    else match ReadElem(t.tl)
      case Err => ([], t)
      case Ok(e, r1) => var (more, r2) := MoreElems(r1); ([e] + more, r2)
  }

  function ReadElem(t: Toks): (r: G.Res<Elem>)
    ensures r.Ok? ==> Len(r.rest) < Len(t)
    decreases Len(t), 43
  {
    var (e, r1) :- ReadExpression(if At0(t, Star) then t.tl else t);
    G.Ok(Elem(At0(t, Star), e), r1)
  }

  /** The contents of braces. */
  function ReadItems(t: Toks): (r: (List<Item>, Toks))
    ensures Len(r.1) <= Len(t)
    decreases Len(t), 45
  {
    match ReadItem(t)
    case Err => (List(None, [], [], false), t)
    case Ok(i, r1) =>
      var (cs, r2) := Comps(r1);
      if cs != [] then (List(Some(i), cs, [], false), r2)
      else
        var (more, r3) := MoreItems(r1);
        (List(Some(i), [], more, At0(r3, Comma)), if At0(r3, Comma) then r3.tl else r3)
  }

  function MoreItems(t: Toks): (r: (seq<Item>, Toks))
    ensures Len(r.1) <= Len(t)
    decreases Len(t), 44
  {
    if !At0(t, Comma) then ([], t)
    else match ReadItem(t.tl)
      case Err => ([], t)
      case Ok(i, r1) => var (more, r2) := MoreItems(r1); ([i] + more, r2)
  }

  function ReadItem(t: Toks): (r: G.Res<Item>)
    ensures r.Ok? ==> Len(r.rest) < Len(t)
    decreases Len(t), 43
  {
    if At0(t, DStar) then
      var (e, r1) :- ReadExpression(t.tl);
      G.Ok(DStarItem(e), r1)
    else if At0(t, Star) then
      var (e, r1) :- ReadExpression(t.tl);
      G.Ok(StarItem(e), r1)
    else
      var (k, r1) :- ReadExpression(t);
      if At0(r1, Colon) && ReadExpression(r1.tl).Ok? then
        var v := ReadExpression(r1.tl);
        G.Ok(KeyItem(k, Some(v.v)), v.rest)
      else G.Ok(KeyItem(k, None), r1)
  }

  // ----- comprehensions -----

  function Comps(t: Toks): (r: (seq<CompFor>, Toks))
    ensures Len(r.1) <= Len(t)
    decreases Len(t), 42
  {
    match ReadComp(t)
    case Err => ([], t)
    case Ok(c, r1) => var (cs, r2) := Comps(r1); ([c] + cs, r2)
  }

  function ReadComp(t: Toks): (r: G.Res<CompFor>)
    ensures r.Ok? ==> Len(r.rest) < Len(t)
    decreases Len(t), 41
  {
    var isAsync := IsKw(t, KwAsync);
    var (_, r1) :- G.Expect(if isAsync then t.tl else t, Nm(KwFor));
    var (target, r2) :- ReadTargets(r1);
    var (_, r3) :- G.Expect(r2, Nm(KwIn));
    var (iter, r4) :- ReadDisjunction(r3);
    var (ifs, r5) := Ifs(r4);
    G.Ok(CompFor(isAsync, target, iter, ifs), r5)
  }

  function Ifs(t: Toks): (r: (seq<Disjunction>, Toks))
    ensures Len(r.1) <= Len(t)
    decreases Len(t), 40
  {
    if !IsKw(t, KwIf) then ([], t)
    else match ReadDisjunction(t.tl)
      case Err => ([], t)
      case Ok(d, r1) => var (ds, r2) := Ifs(r1); ([d] + ds, r2)
  }

  function ReadTargets(t: Toks): (r: G.Res<TargetList>)
    ensures r.Ok? ==> Len(r.rest) < Len(t)
    decreases Len(t), 40
  {
    var (a, r1) :- ReadTarget(t);
    var (more, r2) := MoreTargets(r1);
    G.Ok(TargetList(a, more, At0(r2, Comma)), if At0(r2, Comma) then r2.tl else r2)
  }

  /** A comma before `in` is left for the end of the list. */
  function MoreTargets(t: Toks): (r: (seq<TargetAtom>, Toks))
    ensures Len(r.1) <= Len(t)
    decreases Len(t), 39
  {
    if !At0(t, Comma) || IsKw(t.tl, KwIn) then ([], t)
    else match ReadTarget(t.tl)
      case Err => ([], t)
      case Ok(a, r1) => var (more, r2) := MoreTargets(r1); ([a] + more, r2)
  }

  function ReadTarget(t: Toks): (r: G.Res<TargetAtom>)
    ensures r.Ok? ==> Len(r.rest) < Len(t)
    decreases Len(t), 38
  {
    var (n, r1) :- ReadLevel(7, if At0(t, Star) then t.tl else t);
    G.Ok(TargetAtom(At0(t, Star), n), r1)
  }

  // ----- yield -----

  /** After `yield`. */
  function ReadYield(t: Toks): (r: (YieldExpr, Toks))
    ensures Len(r.1) <= Len(t)
    decreases Len(t), 45
  {
    if IsKw(t, KwFrom) && ReadExpression(t.tl).Ok? then
      var e := ReadExpression(t.tl);
      (FromExpr(e.v), e.rest)
    else match ReadElem(t)
      case Err => (Val(None, [], false), t)
      case Ok(e, r1) =>
        var (more, r2) := MoreElems(r1);
        (Val(Some(e), more, At0(r2, Comma)), if At0(r2, Comma) then r2.tl else r2)
  }
}
