/** Where the legacy emitter (ast/emit.go) and the v2 parser (parser/parser.go) make one tree of the same parts.

    The parts are regular when they do, and what is regular can be told from the parts: no second slash moves
    parameters, no starred expression stands alone in parentheses, joined strings begin with the kind of
    them all, and no comma ends a yield of one value or a subscript of one item.  Two departures can cancel
    each other, as in `yield (*x),`; that is what `Shifted` describes. */
module EmitterTrees {
  import opened Tokens
  import opened Ast
  import G = Grammar
  import opened LegacyGrammar
  import opened LegacyEmit

  // ----- regular text -----

  predicate Regular(x: Expression)
    decreases x, 1
  {
    match x
    case Yielded(y) => RegularYield(y)
    case Named(_, v) => Regular(v)
    case LambdaOf(ps, b) => RegularParams(ps, false, false, false) && Regular(b)
    case Cond(b, None) => RegularOr(b)
    case Cond(b, Some(c)) => RegularOr(b) && RegularOr(c.test) && Regular(c.orelse)
  }

  predicate RegularYield(y: YieldExpr)
    decreases y
  {
    match y
    case FromExpr(e) => Regular(e)
    case Val(None, _, _) => true
    case Val(Some(e), rest, comma) =>
      if rest == [] && comma then !e.star && Shifted(e.e) else RegularElem(e) && RegularElems(rest)
  }

  /** No slash moves parameters after another did.  What is known: whether there are positional-only
      parameters, whether there are others that a slash would move, and whether a star has been passed. */
  predicate RegularParams(ps: seq<LambdaParam>, moved: bool, some: bool, kwonly: bool)
    decreases ps
  {
    if ps == [] then true
    else
      var p := ps[0];
      if p.kind == Some(Slash) then !moved && RegularParams(ps[1..], some, false, kwonly)
      else if p.kind == Some(Star) then RegularParams(ps[1..], moved, some, true)
      else if p.kind.Some? || p.name.None? then RegularParams(ps[1..], moved, some, kwonly)
      else RegularDefault(p) && RegularParams(ps[1..], moved, some || !kwonly, kwonly)
  }

  predicate RegularDefault(p: LambdaParam)
    decreases p
  {
    RegularMaybe(p.default)
  }

  predicate RegularMaybe(o: Option<Expression>)
    decreases o
  {
    match o case None => true case Some(e) => Regular(e)
  }

  predicate RegularOr(d: Disjunction)
    decreases d, 1
  {
    RegularAnd(d.head) && RegularAnds(d.tail)
  }

  predicate RegularAnds(cs: seq<Conjunction>)
    decreases cs
  {
    cs == [] || (RegularAnd(cs[0]) && RegularAnds(cs[1..]))
  }

  predicate RegularAnd(c: Conjunction)
    decreases c, 1
  {
    RegularNot(c.head) && RegularNots(c.tail)
  }

  predicate RegularNots(ins: seq<Inversion>)
    decreases ins
  {
    ins == [] || (RegularNot(ins[0]) && RegularNots(ins[1..]))
  }

  predicate RegularNot(i: Inversion)
    decreases i, 1
  {
    match i
    case Negated(x) => RegularNot(x)
    case Compared(c) => RegularNode(c.head) && RegularRights(c.tail)
  }

  predicate RegularRights(rs: seq<CmpRight>)
    decreases rs
  {
    rs == [] || (RegularRight(rs[0]) && RegularRights(rs[1..]))
  }

  predicate RegularRight(r: CmpRight)
    decreases r
  {
    RegularNode(r.rhs)
  }

  predicate RegularNode(n: Node)
    decreases n, 1
  {
    match n
    case Level(h, ts) => RegularNode(h) && RegularLinks(ts)
    case Sign(_, x) => RegularNode(x)
    case Power(_, p, x) => RegularPrimary(p) && (x.Some? ==> RegularNode(x.value))
  }

  predicate RegularLinks(ts: seq<Link>)
    decreases ts
  {
    ts == [] || (RegularLink(ts[0]) && RegularLinks(ts[1..]))
  }

  predicate RegularLink(l: Link)
    decreases l
  {
    RegularNode(l.rhs)
  }

  predicate RegularPrimary(p: Primary)
    decreases p, 0
  {
    RegularAtom(p.atom) && RegularTrailers(p.trailers)
  }

  predicate RegularTrailers(ts: seq<Trailer>)
    decreases ts
  {
    ts == [] || (RegularTrailer(ts[0]) && RegularTrailers(ts[1..]))
  }

  predicate RegularTrailer(t: Trailer)
    decreases t
  {
    match t
    case Attr(_) => true
    case CallOf(l) => RegularCall(l)
    case SubOf(items, comma) => if |items| == 1 then RegularOnly(items[0], comma) else RegularSubs(items)
  }

  /** The only item of a subscript. */
  predicate RegularOnly(i: Subscripted, comma: bool)
    decreases i, 1
  {
    match i
    case PlainSub(e, None) => if comma || Stars(e) then Shifted(e) else Regular(e)
    case StarSub(_) => RegularSub(i)
    case _ => !comma && RegularSub(i)
  }

  predicate RegularCall(l: List<Argument>)
    decreases l
  {
    match l.first
    case None => true
    case Some(a) =>
      if l.comp != [] then (a.PlainArg? ==> RegularArg(a)) && RegularComps(l.comp)
      else RegularArg(a) && RegularArgs(l.rest)
  }

  predicate RegularArgs(l: seq<Argument>)
    decreases l
  {
    l == [] || (RegularArg(l[0]) && RegularArgs(l[1..]))
  }

  predicate RegularArg(a: Argument)
    decreases a
  {
    Regular(a.e)
  }

  predicate RegularSubs(items: seq<Subscripted>)
    decreases items
  {
    items == [] || (RegularSub(items[0]) && RegularSubs(items[1..]))
  }

  predicate RegularSub(i: Subscripted)
    decreases i, 0
  {
    match i
    case StarSub(e) => Regular(e)
    case PlainSub(e, None) => Regular(e)
    case PlainSub(e, Some(s)) => Regular(e) && RegularMaybe(s.upper) && RegularStep(s.step)
    case BareSub(s) => RegularMaybe(s.upper) && RegularStep(s.step)
  }

  predicate RegularStep(o: Option<Option<Expression>>)
    decreases o
  {
    match o case None => true case Some(m) => RegularMaybe(m)
  }

  predicate RegularAtom(a: Atom)
    decreases a
  {
    match a
    case Strings(ps) => KindOf(ps) == FirstKind(ps)
    case ListLit(l) => RegularElist(l)
    case BraceLit(l) => RegularBrace(l)
    case ParenLit(l) => RegularElist(l) && !LoneStar(l)
    case _ => true
  }

  /** `(*x)`. */
  predicate LoneStar(l: List<Elem>) {
    l.first.Some? && l.first.value.star && l.comp == [] && l.rest == [] && !l.comma
  }

  predicate RegularElist(l: List<Elem>)
    decreases l
  {
    match l.first
    case None => true
    case Some(e) => RegularElem(e) && if l.comp != [] then RegularComps(l.comp) else RegularElems(l.rest)
  }

  predicate RegularElem(e: Elem)
    decreases e
  {
    Regular(e.e)
  }

  predicate RegularElems(es: seq<Elem>)
    decreases es
  {
    es == [] || (RegularElem(es[0]) && RegularElems(es[1..]))
  }

  predicate RegularBrace(l: List<Item>)
    decreases l
  {
    match l.first
    case None => true
    case Some(i) =>
      var isDict := i.DStarItem? || (i.KeyItem? && i.value.Some?);
      if l.comp != [] then
        (if isDict then RegularKey(i) && RegularValue(i) else RegularSetItem(i)) && RegularComps(l.comp)
      else if isDict then RegularDictItem(i) && RegularDictItems(l.rest)
      else RegularSetItem(i) && RegularSetItems(l.rest)
  }

  predicate RegularKey(i: Item)
    decreases i
  {
    match i case KeyItem(k, _) => Regular(k) case _ => true
  }

  predicate RegularValue(i: Item)
    decreases i
  {
    match i case KeyItem(_, Some(v)) => Regular(v) case _ => true
  }

  predicate RegularDictItem(i: Item)
    decreases i
  {
    match i
    case DStarItem(e) => Regular(e)
    case KeyItem(k, Some(v)) => Regular(k) && Regular(v)
    case _ => true
  }

  predicate RegularDictItems(l: seq<Item>)
    decreases l
  {
    l == [] || (RegularDictItem(l[0]) && RegularDictItems(l[1..]))
  }

  predicate RegularSetItem(i: Item)
    decreases i
  {
    match i
    case StarItem(e) => Regular(e)
    case DStarItem(e) => Regular(e)
    case KeyItem(k, _) => Regular(k)
  }

  predicate RegularSetItems(l: seq<Item>)
    decreases l
  {
    l == [] || (RegularSetItem(l[0]) && RegularSetItems(l[1..]))
  }

  predicate RegularComps(cs: seq<CompFor>)
    decreases cs
  {
    cs == [] || (RegularComp(cs[0]) && RegularComps(cs[1..]))
  }

  predicate RegularComp(c: CompFor)
    decreases c
  {
    RegularTargets(c.target) && RegularOr(c.iter) && RegularIfs(c.ifs)
  }

  predicate RegularIfs(ds: seq<Disjunction>)
    decreases ds
  {
    ds == [] || (RegularOr(ds[0]) && RegularIfs(ds[1..]))
  }

  predicate RegularTargets(l: TargetList)
    decreases l
  {
    RegularTarget(l.head) && RegularTargetTail(l.tail)
  }

  predicate RegularTargetTail(l: seq<TargetAtom>)
    decreases l
  {
    l == [] || (RegularTarget(l[0]) && RegularTargetTail(l[1..]))
  }

  predicate RegularTarget(a: TargetAtom)
    decreases a
  {
    RegularNode(a.e)
  }

  // ----- parentheses that a star hides in -----

  /** Parentheses, and no more, around one starred expression: the v2 parser makes it starred. */
  predicate Stars(x: Expression) {
    match x
    case Cond(Disjunction(Conjunction(Compared(Chain(n, rs)), ins), cs), None) =>
      rs == [] && ins == [] && cs == [] && StarsNode(n)
    case _ => false
  }

  predicate StarsNode(n: Node) {
    match n
    case Level(h, ts) => ts == [] && StarsNode(h)
    case Power(false, Primary(ParenLit(l), ts), None) => ts == [] && StarsParen(l)
    case _ => false
  }

  predicate StarsParen(l: List<Elem>) {
    l.comp == [] && l.rest == [] && !l.comma && (match l.first case None => false case Some(e) => e.star || Stars(e.e))
  }

  /** The emitter makes a tuple of one of what the v2 parser makes. */
  predicate Shifted(x: Expression)
    decreases x, 0
  {
    match x
    case Cond(Disjunction(Conjunction(Compared(Chain(n, rs)), ins), cs), None) =>
      rs == [] && ins == [] && cs == [] && ShiftedNode(n)
    case _ => false
  }

  predicate ShiftedNode(n: Node)
    decreases n, 0
  {
    match n
    case Level(h, ts) => ts == [] && ShiftedNode(h)
    case Power(false, Primary(ParenLit(l), ts), None) => ts == [] && ShiftedParen(l)
    case _ => false
  }

  predicate ShiftedParen(l: List<Elem>)
    decreases l, 0
  {
    l.comp == [] && l.rest == [] &&
    (match l.first case None => false case Some(e) => if e.star then !l.comma && RegularElem(e) else Shifted(e.e))
  }

  // ----- the two trees -----

  lemma ConsSame<T>(a: T, b: T, x: seq<T>, y: seq<T>)
    ensures [a] + x == [b] + y <==> a == b && x == y
  {
    assert ([a] + x)[0] == a && ([a] + x)[1..] == x;
    assert ([b] + y)[0] == b && ([b] + y)[1..] == y;
  }

  lemma CatSame<T>(a: seq<T>, b: seq<T>, x: seq<T>, y: seq<T>)
    requires |a| == |b|
    ensures a + x == b + y <==> a == b && x == y
  {
    assert (a + x)[..|a|] == a && (a + x)[|a|..] == x;
    assert (b + y)[..|b|] == b && (b + y)[|b|..] == y;
  }

  /** The emitter and the v2 parser make one tree of the parts of an expression exactly if they are regular. */
  lemma {:induction false} SameTreeExactly(x: Expression)
    ensures Emit(Legacy, x) == Emit(V2, x) <==> Regular(x)
    decreases x, 1
  {
    hide EmitYield, RegularYield, EmitParams, RegularParams, EmitDisjunction, RegularOr;
    match x
    case Yielded(y) => YieldTree(y);
    case Named(_, v) => SameTreeExactly(v);
    case LambdaOf(ps, b) =>
      ParamsTree(ps, G.NO_ARGS, G.NO_ARGS, false);
      SameTreeExactly(b);
    case Cond(b, None) => OrTree(b);
    case Cond(b, Some(c)) =>
      OrTree(b);
      OrTree(c.test);
      SameTreeExactly(c.orelse);
  }

  lemma {:induction false} YieldTree(y: YieldExpr)
    ensures EmitYield(Legacy, y) == EmitYield(V2, y) <==> RegularYield(y)
    decreases y
  {
    hide Emit, Regular, EmitElem, RegularElem, EmitElems, RegularElems, Shifted;
    match y
    case FromExpr(e) => SameTreeExactly(e);
    case Val(None, _, _) =>
    case Val(Some(e), rest, comma) =>
      ElemTree(e);
      ElemsTree(rest);
      ElemEmits(e);
      ShiftedExactly(e.e);
      ConsSame(EmitElem(Legacy, e), EmitElem(V2, e), EmitElems(Legacy, rest), EmitElems(V2, rest));
      ElemsNone();
      assert [EmitElem(V2, e)] + [] == [EmitElem(V2, e)];
  }

  lemma ElemEmits(e: Elem)
    ensures forall who: Builder :: EmitElem(who, e) == if e.star then Starred(Emit(who, e.e)) else Emit(who, e.e)
  {
    hide Emit;
  }

  // ----- parameters -----

  /** Arguments that differ in what their defaults are and in what slashes have moved. */
  predicate Alike(a: Arguments, b: Arguments) {
    && a.args == b.args && a.kwonly == b.kwonly && a.vararg == b.vararg && a.kwarg == b.kwarg
    && |a.defaults| == |b.defaults| && |a.kwdefaults| == |b.kwdefaults|
    && (a.posonly == b.posonly || |a.posonly| > |b.posonly|)
  }

  lemma {:induction false} ParamsTree(ps: seq<LambdaParam>, a: Arguments, b: Arguments, kwonly: bool)
    requires Alike(a, b)
    ensures EmitParams(Legacy, ps, a, kwonly) == EmitParams(V2, ps, b, kwonly) <==>
            a == b && RegularParams(ps, a.posonly != [], a.args != [], kwonly)
    decreases ps
  {
    hide DefaultOf, RegularDefault;
    if ps != [] {
      var p := ps[0];
      if p.kind == Some(Slash) {
        SlashTree(a, b);
        ParamsTree(ps[1..], Slashed(Legacy, a), Slashed(V2, b), kwonly);
      } else if p.kind == Some(Star) {
        var n := if p.name.Some? then Some(Param(p.name.value, None)) else None;
        var a', b' := if p.name.Some? then a.(vararg := n) else a, if p.name.Some? then b.(vararg := n) else b;
        ParamsTree(ps[1..], a', b', true);
      } else if p.kind.Some? {
        var n := Some(Param(TextOf(p.name), None));
        assert a.(kwarg := n) == b.(kwarg := n) <==> a == b;
        ParamsTree(ps[1..], a.(kwarg := n), b.(kwarg := n), kwonly);
      } else if p.name.None? {
        ParamsTree(ps[1..], a, b, kwonly);
      } else {
        var n := Param(p.name.value, None);
        var d, e := DefaultOf(Legacy, p), DefaultOf(V2, p);
        DefaultTree(p);
        AddedTree(a, b, kwonly, n, d, e);
        ParamsTree(ps[1..], G.AddParam(a, kwonly, n, d), G.AddParam(b, kwonly, n, e), kwonly);
      }
    }
  }

  lemma SlashTree(a: Arguments, b: Arguments)
    requires Alike(a, b)
    ensures var c, d := Slashed(Legacy, a), Slashed(V2, b);
            && Alike(c, d)
            && (c == d <==> a == b && a.posonly == [])
            && (a.posonly == [] ==> (c.posonly != [] <==> a.args != []))
  {
    var c, d := Slashed(Legacy, a), Slashed(V2, b);
    assert d.posonly == b.args;
    if a.posonly == [] {
      assert c.posonly == a.args;
    } else {
      assert |c.posonly| > |d.posonly|;
    }
  }

  lemma AddedTree(a: Arguments, b: Arguments, kwonly: bool, n: Param, d: Option<Expr>, e: Option<Expr>)
    requires Alike(a, b) && (d.Some? <==> e.Some?)
    ensures var x, y := G.AddParam(a, kwonly, n, d), G.AddParam(b, kwonly, n, e);
            && Alike(x, y)
            && (x == y <==> a == b && d == e)
            && x.posonly == a.posonly
            && (x.args != [] <==> a.args != [] || !kwonly)
  {
    if kwonly {
      CatSame(a.kwdefaults, b.kwdefaults, [d], [e]);
    } else if d.Some? {
      CatSame(a.defaults, b.defaults, [d.value], [e.value]);
    } else {
      assert a.defaults + [] == a.defaults && b.defaults + [] == b.defaults;
    }
  }

  lemma {:induction false} DefaultTree(p: LambdaParam)
    ensures DefaultOf(Legacy, p) == DefaultOf(V2, p) <==> RegularDefault(p)
    ensures DefaultOf(Legacy, p).Some? <==> DefaultOf(V2, p).Some?
    decreases p
  {
    hide EmitMaybe, RegularMaybe;
    MaybeTree(p.default);
  }

  lemma {:induction false} MaybeTree(o: Option<Expression>)
    ensures EmitMaybe(Legacy, o) == EmitMaybe(V2, o) <==> RegularMaybe(o)
    ensures EmitMaybe(Legacy, o).Some? <==> EmitMaybe(V2, o).Some?
    decreases o
  {
    hide Emit, Regular;
    if o.Some? {
      SameTreeExactly(o.value);
    }
  }

  // ----- the ladder -----

  lemma {:induction false} OrTree(d: Disjunction)
    ensures EmitDisjunction(Legacy, d) == EmitDisjunction(V2, d) <==> RegularOr(d)
    decreases d, 1
  {
    hide EmitConjunction, RegularAnd, Conjunctions, RegularAnds;
    AndTree(d.head);
    OrsTree(d.tail);
    Empties();
    var a, b := EmitConjunction(Legacy, d.head), EmitConjunction(V2, d.head);
    ConsSame(a, b, Conjunctions(Legacy, d.tail), Conjunctions(V2, d.tail));
  }

  lemma Empties()
    ensures RegularAnds([]) && RegularNots([]) && RegularRights([])
  {
  }

  lemma {:induction false} OrsTree(cs: seq<Conjunction>)
    ensures Conjunctions(Legacy, cs) == Conjunctions(V2, cs) <==> RegularAnds(cs)
    decreases cs
  {
    hide EmitConjunction, RegularAnd;
    if cs != [] {
      AndTree(cs[0]);
      OrsTree(cs[1..]);
      var a, b := EmitConjunction(Legacy, cs[0]), EmitConjunction(V2, cs[0]);
      ConsSame(a, b, Conjunctions(Legacy, cs[1..]), Conjunctions(V2, cs[1..]));
    }
  }

  lemma {:induction false} AndTree(c: Conjunction)
    ensures EmitConjunction(Legacy, c) == EmitConjunction(V2, c) <==> RegularAnd(c)
    decreases c, 1
  {
    hide EmitInversion, RegularNot, Inversions, RegularNots;
    NotTree(c.head);
    AndsTree(c.tail);
    Empties();
    var a, b := EmitInversion(Legacy, c.head), EmitInversion(V2, c.head);
    ConsSame(a, b, Inversions(Legacy, c.tail), Inversions(V2, c.tail));
  }

  lemma {:induction false} AndsTree(ins: seq<Inversion>)
    ensures Inversions(Legacy, ins) == Inversions(V2, ins) <==> RegularNots(ins)
    decreases ins
  {
    hide EmitInversion, RegularNot;
    if ins != [] {
      NotTree(ins[0]);
      AndsTree(ins[1..]);
      var a, b := EmitInversion(Legacy, ins[0]), EmitInversion(V2, ins[0]);
      ConsSame(a, b, Inversions(Legacy, ins[1..]), Inversions(V2, ins[1..]));
    }
  }

  lemma {:induction false} NotTree(i: Inversion)
    ensures EmitInversion(Legacy, i) == EmitInversion(V2, i) <==> RegularNot(i)
    decreases i, 1
  {
    hide EmitNode, RegularNode, Rights, RegularRights;
    match i
    case Negated(x) => NotTree(x);
    case Compared(c) =>
      NodeTree(c.head);
      RightsTree(c.tail);
      Empties();
      assert forall who: Builder :: EmitInversion(who, i) == EmitChain(who, c);
  }

  lemma {:induction false} RightsTree(rs: seq<CmpRight>)
    ensures Rights(Legacy, rs) == Rights(V2, rs) <==> RegularRights(rs)
    decreases rs
  {
    hide EmitRight, RegularRight;
    if rs != [] {
      RightTree(rs[0]);
      RightsTree(rs[1..]);
      ConsSame(EmitRight(Legacy, rs[0]), EmitRight(V2, rs[0]), Rights(Legacy, rs[1..]), Rights(V2, rs[1..]));
    }
  }

  lemma {:induction false} RightTree(r: CmpRight)
    ensures EmitRight(Legacy, r) == EmitRight(V2, r) <==> RegularRight(r)
    decreases r
  {
    hide EmitNode, RegularNode;
    NodeTree(r.rhs);
  }

  lemma {:induction false} NodeTree(n: Node)
    ensures EmitNode(Legacy, n) == EmitNode(V2, n) <==> RegularNode(n)
    decreases n, 1
  {
    hide Fold, RegularLinks, EmitPrimary, RegularPrimary;
    match n
    case Level(h, ts) =>
      NodeTree(h);
      FoldTree(EmitNode(Legacy, h), EmitNode(V2, h), ts);
    case Sign(_, x) => NodeTree(x);
    case Power(_, p, x) =>
      PrimaryTree(p);
      if x.Some? {
        NodeTree(x.value);
      }
  }

  lemma {:induction false} FoldTree(a: Expr, b: Expr, ts: seq<Link>)
    ensures Fold(Legacy, a, ts) == Fold(V2, b, ts) <==> a == b && RegularLinks(ts)
    decreases ts
  {
    hide EmitLink, RegularLink;
    if ts != [] {
      LinkTree(ts[0]);
      FoldTree(BinOp(ts[0].op, a, EmitLink(Legacy, ts[0])), BinOp(ts[0].op, b, EmitLink(V2, ts[0])), ts[1..]);
    }
  }

  lemma {:induction false} LinkTree(l: Link)
    ensures EmitLink(Legacy, l) == EmitLink(V2, l) <==> RegularLink(l)
    decreases l
  {
    hide EmitNode, RegularNode;
    NodeTree(l.rhs);
  }

  // ----- primaries -----

  lemma {:induction false} PrimaryTree(p: Primary)
    ensures EmitPrimary(Legacy, p) == EmitPrimary(V2, p) <==> RegularPrimary(p)
    decreases p
  {
    hide EmitAtom, RegularAtom, EmitTrailers, RegularTrailers;
    AtomTree(p.atom);
    TrailersTree(EmitAtom(Legacy, p.atom), EmitAtom(V2, p.atom), p.trailers);
  }

  lemma {:induction false} TrailersTree(a: Expr, b: Expr, ts: seq<Trailer>)
    ensures EmitTrailers(Legacy, a, ts) == EmitTrailers(V2, b, ts) <==> a == b && RegularTrailers(ts)
    decreases ts
  {
    hide ApplyTrailer, RegularTrailer;
    if ts != [] {
      TrailerTree(a, b, ts[0]);
      TrailersTree(ApplyTrailer(Legacy, a, ts[0]), ApplyTrailer(V2, b, ts[0]), ts[1..]);
    }
  }

  lemma {:induction false} TrailerTree(a: Expr, b: Expr, t: Trailer)
    ensures ApplyTrailer(Legacy, a, t) == ApplyTrailer(V2, b, t) <==> a == b && RegularTrailer(t)
    decreases t
  {
    hide EmitCall, RegularCall, EmitSub, EmitSubs, RegularSubs, RegularOnly, ApplyTrailer, Index;
    match t
    case Attr(_) =>
      Applied(Legacy, a, t);
      Applied(V2, b, t);
    case CallOf(l) =>
      CallTree(l);
      CallSame(a, b, l);
    case SubOf(items, comma) =>
      Applied(Legacy, a, t);
      Applied(V2, b, t);
      if |items| == 1 {
        OnlyTree(items[0], comma);
      } else {
        SubsTree(items);
      }
  }

  lemma CallSame(a: Expr, b: Expr, l: List<Argument>)
    ensures ApplyTrailer(Legacy, a, CallOf(l)) == ApplyTrailer(V2, b, CallOf(l)) <==>
            a == b && EmitCall(Legacy, l) == EmitCall(V2, l)
  {
    hide EmitCall;
  }

  lemma Applied(who: Builder, cur: Expr, t: Trailer)
    ensures match t
            case Attr(x) => ApplyTrailer(who, cur, t) == Attribute(cur, x)
            case CallOf(_) => true
            case SubOf(items, comma) =>
              ApplyTrailer(who, cur, t) ==
                Subscript(cur, if |items| == 1 then Index(who, items[0], comma) else Tuple(EmitSubs(who, items)))
  {
    hide EmitSub, EmitSubs;
  }

  /** The index that each makes of one item. */
  function Index(who: Builder, i: Subscripted, comma: bool): Expr {
    var item := EmitSub(who, i);
    if who.Legacy? then (if i.StarSub? then Tuple([item]) else item)
    else if comma || item.Starred? then Tuple([item]) else item
  }

  lemma {:induction false} OnlyTree(i: Subscripted, comma: bool)
    ensures Index(Legacy, i, comma) == Index(V2, i, comma) <==> RegularOnly(i, comma)
    decreases i, 1
  {
    hide Emit, Regular, EmitMaybe, EmitStep, RegularMaybe, RegularStep, Stars, Shifted;
    SubTree(i);
    match i
    case PlainSub(e, None) =>
      ShiftedExactly(e);
      StarsExactly(e);
    case _ =>
  }

  lemma {:induction false} SubTree(i: Subscripted)
    ensures EmitSub(Legacy, i) == EmitSub(V2, i) <==> RegularSub(i)
    decreases i, 0
  {
    hide Emit, Regular, EmitMaybe, EmitStep, RegularMaybe, RegularStep;
    match i
    case StarSub(e) => SameTreeExactly(e);
    case PlainSub(e, None) => SameTreeExactly(e);
    case PlainSub(e, Some(s)) =>
      SameTreeExactly(e);
      MaybeTree(s.upper);
      StepTree(s.step);
    case BareSub(s) =>
      MaybeTree(s.upper);
      StepTree(s.step);
  }

  lemma {:induction false} StepTree(o: Option<Option<Expression>>)
    ensures EmitStep(Legacy, o) == EmitStep(V2, o) <==> RegularStep(o)
    decreases o
  {
    hide EmitMaybe, RegularMaybe;
    if o.Some? {
      MaybeTree(o.value);
    }
  }

  lemma {:induction false} SubsTree(items: seq<Subscripted>)
    ensures EmitSubs(Legacy, items) == EmitSubs(V2, items) <==> RegularSubs(items)
    decreases items
  {
    hide EmitSub, RegularSub;
    if items != [] {
      SubTree(items[0]);
      SubsTree(items[1..]);
      var a, b := EmitSub(Legacy, items[0]), EmitSub(V2, items[0]);
      ConsSame(a, b, EmitSubs(Legacy, items[1..]), EmitSubs(V2, items[1..]));
    }
  }

  lemma {:induction false} CallTree(l: List<Argument>)
    ensures EmitCall(Legacy, l) == EmitCall(V2, l) <==> RegularCall(l)
    decreases l
  {
    hide EmitArg, RegularArg, EmitArgs, RegularArgs, EmitComps, RegularComps, Emit;
    if l.first.Some? {
      var a := l.first.value;
      ArgTree(a);
      if l.comp != [] {
        CompsTree(l.comp);
        PlainTree(a);
      } else {
        ArgsTree(l.rest);
        JointSame(EmitArg(Legacy, a), EmitArg(V2, a), EmitArgs(Legacy, l.rest), EmitArgs(V2, l.rest));
      }
    }
  }

  lemma PlainTree(a: Argument)
    requires EmitArg(Legacy, a) == EmitArg(V2, a) <==> RegularArg(a)
    ensures a.PlainArg? ==> (Emit(Legacy, a.e) == Emit(V2, a.e) <==> RegularArg(a))
  {
    hide Emit, Regular;
  }

  lemma JointSame(a: G.CallArgs, b: G.CallArgs, x: G.CallArgs, y: G.CallArgs)
    requires |a.args| == |b.args| && |a.keywords| == |b.keywords|
    ensures Joint(a, x) == Joint(b, y) <==> a == b && x == y
  {
    CatSame(a.args, b.args, x.args, y.args);
    CatSame(a.keywords, b.keywords, x.keywords, y.keywords);
  }

  lemma {:induction false} ArgsTree(l: seq<Argument>)
    ensures EmitArgs(Legacy, l) == EmitArgs(V2, l) <==> RegularArgs(l)
    decreases l
  {
    hide EmitArg, RegularArg;
    if l != [] {
      ArgTree(l[0]);
      ArgsTree(l[1..]);
      JointSame(EmitArg(Legacy, l[0]), EmitArg(V2, l[0]), EmitArgs(Legacy, l[1..]), EmitArgs(V2, l[1..]));
    }
  }

  lemma {:induction false} ArgTree(a: Argument)
    ensures EmitArg(Legacy, a) == EmitArg(V2, a) <==> RegularArg(a)
    ensures |EmitArg(Legacy, a).args| == |EmitArg(V2, a).args|
    ensures |EmitArg(Legacy, a).keywords| == |EmitArg(V2, a).keywords|
    decreases a
  {
    hide Emit, Regular;
    SameTreeExactly(a.e);
  }

  // ----- atoms -----

  lemma {:induction false} AtomTree(a: Atom)
    ensures EmitAtom(Legacy, a) == EmitAtom(V2, a) <==> RegularAtom(a)
    decreases a
  {
    hide EmitList, EmitBrace, EmitParen, RegularElist, RegularBrace, LoneStar, KindOf, FirstKind, TextOfParts;
    match a
    case ListLit(l) => ListTree(l);
    case BraceLit(l) => BraceTree(l);
    case ParenLit(l) => ParenTree(l);
    case AtomName(_) =>
    case Number(_) =>
    case Strings(_) =>
    case Ellipsis =>
  }

  lemma {:induction false} ElemTree(e: Elem)
    ensures EmitElem(Legacy, e) == EmitElem(V2, e) <==> RegularElem(e)
    decreases e
  {
    hide Emit, Regular;
    SameTreeExactly(e.e);
  }

  lemma {:induction false} ElemsTree(es: seq<Elem>)
    ensures EmitElems(Legacy, es) == EmitElems(V2, es) <==> RegularElems(es)
    decreases es
  {
    hide EmitElem, RegularElem;
    if es != [] {
      ElemTree(es[0]);
      ElemsTree(es[1..]);
      ConsSame(EmitElem(Legacy, es[0]), EmitElem(V2, es[0]), EmitElems(Legacy, es[1..]), EmitElems(V2, es[1..]));
    }
  }

  lemma {:induction false} ListTree(l: List<Elem>)
    ensures EmitList(Legacy, l) == EmitList(V2, l) <==> RegularElist(l)
    decreases l
  {
    hide EmitElem, RegularElem, EmitElems, RegularElems, EmitComps, RegularComps;
    if l.first.Some? {
      var e := l.first.value;
      ElemTree(e);
      ElemsTree(l.rest);
      CompsTree(l.comp);
      ConsSame(EmitElem(Legacy, e), EmitElem(V2, e), EmitElems(Legacy, l.rest), EmitElems(V2, l.rest));
    }
  }

  lemma {:induction false} ParenTree(l: List<Elem>)
    ensures EmitParen(Legacy, l) == EmitParen(V2, l) <==> RegularElist(l) && !LoneStar(l)
    decreases l
  {
    hide EmitElem, RegularElem, EmitElems, RegularElems, EmitComps, RegularComps, Emit;
    if l.first.Some? {
      var e := l.first.value;
      ElemTree(e);
      ElemsTree(l.rest);
      CompsTree(l.comp);
      ElemEmits(e);
      ElemsNone();
      ConsSame(EmitElem(Legacy, e), EmitElem(V2, e), EmitElems(Legacy, l.rest), EmitElems(V2, l.rest));
    }
  }

  lemma ElemsNone()
    ensures RegularElems([]) && EmitElems(Legacy, []) == [] && EmitElems(V2, []) == []
  {
  }

  lemma {:induction false} BraceTree(l: List<Item>)
    ensures EmitBrace(Legacy, l) == EmitBrace(V2, l) <==> RegularBrace(l)
    decreases l
  {
    hide EmitDictItem, EmitDictItems, EmitSetItem, EmitSetItems, KeyOf, ValueOf, RegularDictItem, RegularDictItems,
      RegularSetItem, RegularSetItems, RegularKey, RegularValue, EmitComps, RegularComps;
    if l.first.Some? {
      var i := l.first.value;
      ItemTree(i);
      CompsTree(l.comp);
      DictItemsTree(l.rest);
      SetItemsTree(l.rest);
      CatSame(EmitDictItem(Legacy, i), EmitDictItem(V2, i), EmitDictItems(Legacy, l.rest), EmitDictItems(V2, l.rest));
      ConsSame(EmitSetItem(Legacy, i), EmitSetItem(V2, i), EmitSetItems(Legacy, l.rest), EmitSetItems(V2, l.rest));
    }
  }

  lemma {:induction false} ItemTree(i: Item)
    ensures EmitDictItem(Legacy, i) == EmitDictItem(V2, i) <==> RegularDictItem(i)
    ensures |EmitDictItem(Legacy, i)| == |EmitDictItem(V2, i)|
    ensures EmitSetItem(Legacy, i) == EmitSetItem(V2, i) <==> RegularSetItem(i)
    ensures KeyOf(Legacy, i) == KeyOf(V2, i) <==> RegularKey(i)
    ensures ValueOf(Legacy, i) == ValueOf(V2, i) <==> RegularValue(i)
    decreases i
  {
    hide Emit, Regular;
    match i
    case DStarItem(e) => SameTreeExactly(e);
    case StarItem(e) => SameTreeExactly(e);
    case KeyItem(k, None) => SameTreeExactly(k);
    case KeyItem(k, Some(v)) =>
      SameTreeExactly(k);
      SameTreeExactly(v);
  }

  lemma {:induction false} DictItemsTree(l: seq<Item>)
    ensures EmitDictItems(Legacy, l) == EmitDictItems(V2, l) <==> RegularDictItems(l)
    decreases l
  {
    hide EmitDictItem, RegularDictItem;
    if l != [] {
      ItemTree(l[0]);
      DictItemsTree(l[1..]);
      CatSame(EmitDictItem(Legacy, l[0]), EmitDictItem(V2, l[0]), EmitDictItems(Legacy, l[1..]),
        EmitDictItems(V2, l[1..]));
    }
  }

  lemma {:induction false} SetItemsTree(l: seq<Item>)
    ensures EmitSetItems(Legacy, l) == EmitSetItems(V2, l) <==> RegularSetItems(l)
    decreases l
  {
    hide EmitSetItem, RegularSetItem;
    if l != [] {
      ItemTree(l[0]);
      SetItemsTree(l[1..]);
      ConsSame(EmitSetItem(Legacy, l[0]), EmitSetItem(V2, l[0]), EmitSetItems(Legacy, l[1..]),
        EmitSetItems(V2, l[1..]));
    }
  }

  // ----- comprehensions -----

  lemma {:induction false} CompsTree(cs: seq<CompFor>)
    ensures EmitComps(Legacy, cs) == EmitComps(V2, cs) <==> RegularComps(cs)
    decreases cs
  {
    hide EmitComp, RegularComp;
    if cs != [] {
      CompTree(cs[0]);
      CompsTree(cs[1..]);
      ConsSame(EmitComp(Legacy, cs[0]), EmitComp(V2, cs[0]), EmitComps(Legacy, cs[1..]), EmitComps(V2, cs[1..]));
    }
  }

  lemma {:induction false} CompTree(c: CompFor)
    ensures EmitComp(Legacy, c) == EmitComp(V2, c) <==> RegularComp(c)
    decreases c
  {
    hide EmitTargets, RegularTargets, EmitDisjunction, RegularOr, EmitIfs, RegularIfs;
    TargetsTree(c.target);
    OrTree(c.iter);
    IfsTree(c.ifs);
  }

  lemma {:induction false} IfsTree(ds: seq<Disjunction>)
    ensures EmitIfs(Legacy, ds) == EmitIfs(V2, ds) <==> RegularIfs(ds)
    decreases ds
  {
    hide EmitDisjunction, RegularOr;
    if ds != [] {
      OrTree(ds[0]);
      IfsTree(ds[1..]);
      var a, b := EmitDisjunction(Legacy, ds[0]), EmitDisjunction(V2, ds[0]);
      ConsSame(a, b, EmitIfs(Legacy, ds[1..]), EmitIfs(V2, ds[1..]));
    }
  }

  lemma {:induction false} TargetsTree(l: TargetList)
    ensures EmitTargets(Legacy, l) == EmitTargets(V2, l) <==> RegularTargets(l)
    decreases l
  {
    hide EmitTarget, RegularTarget, EmitTargetTail, RegularTargetTail;
    TargetTree(l.head);
    TargetTailTree(l.tail);
    assert RegularTargetTail([]) by { TargetsNone(); }
    var a, b := EmitTarget(Legacy, l.head), EmitTarget(V2, l.head);
    ConsSame(a, b, EmitTargetTail(Legacy, l.tail), EmitTargetTail(V2, l.tail));
  }

  lemma TargetsNone()
    ensures RegularTargetTail([])
  {
  }

  lemma {:induction false} TargetTailTree(l: seq<TargetAtom>)
    ensures EmitTargetTail(Legacy, l) == EmitTargetTail(V2, l) <==> RegularTargetTail(l)
    decreases l
  {
    hide EmitTarget, RegularTarget;
    if l != [] {
      TargetTree(l[0]);
      TargetTailTree(l[1..]);
      var a, b := EmitTarget(Legacy, l[0]), EmitTarget(V2, l[0]);
      ConsSame(a, b, EmitTargetTail(Legacy, l[1..]), EmitTargetTail(V2, l[1..]));
    }
  }

  lemma {:induction false} TargetTree(a: TargetAtom)
    ensures EmitTarget(Legacy, a) == EmitTarget(V2, a) <==> RegularTarget(a)
    decreases a
  {
    hide EmitNode, RegularNode;
    NodeTree(a.e);
  }

  // ----- parentheses -----

  /** The one operand that an expression is, if it is no more. */
  function Sole(x: Expression): Option<Node> {
    match x
    case Cond(Disjunction(Conjunction(Compared(Chain(n, rs)), ins), cs), None) =>
      if rs == [] && ins == [] && cs == [] then Some(n) else None
    case _ => None
  }

  /** An expression that is more than its operand is neither a tuple nor starred. */
  lemma SoleEmits(who: Builder, x: Expression)
    ensures match Sole(x)
            case None => !Emit(who, x).Tuple? && !Emit(who, x).Starred?
            case Some(n) => Emit(who, x) == EmitNode(who, n)
  {
    hide EmitNode, Conjunctions, Inversions, Rights, EmitParams, EmitYield;
    match x
    case Yielded(y) => YieldShape(who, y);
    case Cond(b, None) => OrShape(who, b);
    case _ =>
  }

  lemma YieldShape(who: Builder, y: YieldExpr)
    ensures !EmitYield(who, y).Tuple? && !EmitYield(who, y).Starred?
  {
    hide Emit, EmitElem, EmitElems;
  }

  predicate InversionShape(e: Expr, who: Builder, i: Inversion) {
    match i
    case Negated(_) => e.UnaryOp?
    case Compared(c) => if c.tail == [] then e == EmitNode(who, c.head) else e.Compare?
  }

  lemma OrShape(who: Builder, d: Disjunction)
    ensures d.tail != [] ==> EmitDisjunction(who, d).BoolOp?
    ensures d.tail == [] && d.head.tail != [] ==> EmitDisjunction(who, d).BoolOp?
    ensures d.tail == [] && d.head.tail == [] ==> InversionShape(EmitDisjunction(who, d), who, d.head.head)
  {
    hide EmitNode, Conjunctions, Inversions, Rights;
    assert d.tail == [] ==> EmitDisjunction(who, d) == EmitConjunction(who, d.head);
    assert d.head.tail == [] ==> EmitConjunction(who, d.head) == EmitInversion(who, d.head.head);
    assert d.head.head.Compared? ==> EmitInversion(who, d.head.head) == EmitChain(who, d.head.head.comp);
  }

  lemma FoldShape(who: Builder, cur: Expr, ts: seq<Link>)
    ensures if ts == [] then Fold(who, cur, ts) == cur else Fold(who, cur, ts).BinOp?
    decreases ts
  {
    hide EmitLink;
    if ts != [] {
      FoldShape(who, BinOp(ts[0].op, cur, EmitLink(who, ts[0])), ts[1..]);
    }
  }

  lemma TrailersShape(who: Builder, cur: Expr, ts: seq<Trailer>)
    ensures var e := EmitTrailers(who, cur, ts);
            if ts == [] then e == cur else e.Attribute? || e.Call? || e.Subscript?
    decreases ts
  {
    if ts != [] {
      TrailersShape(who, ApplyTrailer(who, cur, ts[0]), ts[1..]);
    }
  }

  lemma AtomShape(who: Builder, a: Atom)
    ensures !a.ParenLit? ==> !EmitAtom(who, a).Tuple? && !EmitAtom(who, a).Starred?
    ensures a.ParenLit? ==> EmitAtom(who, a) == EmitParen(who, a.elts)
  {
    hide EmitParen, EmitComps, EmitElems, EmitSetItems, EmitDictItems, KindOf, FirstKind, TextOfParts;
  }

  /** The contents of the parentheses that an operand is, if it is no more. */
  function Held(n: Node): Option<List<Elem>> {
    match n
    case Power(false, Primary(ParenLit(l), ts), None) => if ts == [] then Some(l) else None
    case _ => None
  }

  lemma PowerShape(who: Builder, n: Node)
    requires n.Power?
    ensures match Held(n)
            case None => !EmitNode(who, n).Tuple? && !EmitNode(who, n).Starred?
            case Some(l) => EmitNode(who, n) == EmitParen(who, l)
  {
    hide EmitParen, EmitTrailers, EmitAtom;
    AtomShape(who, n.primary.atom);
    TrailersShape(who, EmitAtom(who, n.primary.atom), n.primary.trailers);
    assert EmitPrimary(who, n.primary) == EmitTrailers(who, EmitAtom(who, n.primary.atom), n.primary.trailers);
  }

  lemma {:induction false} StarsExactly(x: Expression)
    ensures Emit(V2, x).Starred? <==> Stars(x)
    decreases x, 2
  {
    hide Emit, EmitNode, StarsNode;
    SoleEmits(V2, x);
    match Sole(x)
    case None =>
    case Some(n) => StarsNodeExactly(n);
  }

  lemma {:induction false} StarsNodeExactly(n: Node)
    ensures EmitNode(V2, n).Starred? <==> StarsNode(n)
    decreases n, 2
  {
    hide EmitParen, StarsParen, Fold, EmitPrimary;
    match n
    case Level(h, ts) =>
      StarsNodeExactly(h);
      FoldShape(V2, EmitNode(V2, h), ts);
    case Sign(_, _) =>
    case Power(_, _, _) =>
      PowerShape(V2, n);
      if Held(n).Some? {
        StarsParenExactly(n.primary.atom.elts);
      }
  }

  lemma {:induction false} StarsParenExactly(l: List<Elem>)
    ensures EmitParen(V2, l).Starred? <==> StarsParen(l)
    decreases l, 2
  {
    hide Emit, Stars, EmitElems, EmitComps;
    if l.first.Some? {
      StarsExactly(l.first.value.e);
    }
  }

  lemma {:induction false} ShiftedExactly(x: Expression)
    ensures Emit(Legacy, x) == Tuple([Emit(V2, x)]) <==> Shifted(x)
    decreases x, 2
  {
    hide Emit, EmitNode, ShiftedNode;
    SoleEmits(Legacy, x);
    SoleEmits(V2, x);
    match Sole(x)
    case None =>
    case Some(n) => ShiftedNodeExactly(n);
  }

  lemma {:induction false} ShiftedNodeExactly(n: Node)
    ensures EmitNode(Legacy, n) == Tuple([EmitNode(V2, n)]) <==> ShiftedNode(n)
    decreases n, 2
  {
    hide EmitParen, ShiftedParen, Fold, EmitPrimary;
    match n
    case Level(h, ts) =>
      ShiftedNodeExactly(h);
      FoldShape(Legacy, EmitNode(Legacy, h), ts);
      FoldShape(V2, EmitNode(V2, h), ts);
    case Sign(_, _) =>
    case Power(_, _, _) =>
      PowerShape(Legacy, n);
      PowerShape(V2, n);
      if Held(n).Some? {
        ShiftedParenExactly(n.primary.atom.elts);
      }
  }

  lemma {:induction false} ShiftedParenExactly(l: List<Elem>)
    ensures EmitParen(Legacy, l) == Tuple([EmitParen(V2, l)]) <==> ShiftedParen(l)
    decreases l, 2
  {
    hide Emit, EmitElem, Shifted, RegularElem, EmitElems, EmitComps;
    if l.first.Some? {
      var e := l.first.value;
      ElemTree(e);
      ElemEmits(e);
      ElemsNone();
      ShiftedExactly(e.e);
      ElemsMany(Legacy, l.rest);
      assert |[EmitElem(Legacy, e)] + EmitElems(Legacy, l.rest)| == 1 + |l.rest|;
      assert l.rest == [] ==> [EmitElem(Legacy, e)] + EmitElems(Legacy, l.rest) == [EmitElem(Legacy, e)];
      assert l.rest == [] ==> [EmitElem(V2, e)] + EmitElems(V2, l.rest) == [EmitElem(V2, e)];
    }
  }

  lemma ElemsMany(who: Builder, es: seq<Elem>)
    ensures |EmitElems(who, es)| == |es|
  {
    hide EmitElem;
  }
}
