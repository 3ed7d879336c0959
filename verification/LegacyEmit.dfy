/** The legacy emitter (ast/emit.go): from the trees that the legacy grammar collects to expression trees.

    The v2 parser makes its trees as it reads.  Of the same parts it makes another tree than the emitter in
    six places, which the functions tell apart: a comma after the only value of a yield or the only item of a
    subscript, a starred expression alone in parentheses, a starred item of a subscript that such parentheses
    hide, a second slash among parameters, and the kind of joined strings. */
module LegacyEmit {
  import opened Tokens
  import opened Ast
  import G = Grammar
  import opened LegacyGrammar

  datatype Builder = Legacy | V2

  /** What is emitted for a part that is not there. */
  const PLACEHOLDER := Constant(CNone)

  function Emit(who: Builder, x: Expression): Expr
    decreases x, 1
  {
    match x
    case Yielded(y) => EmitYield(who, y)
    case Named(w, v) => NamedExpr(Name(G.WordText(w)), Emit(who, v))
    case LambdaOf(ps, b) => Lambda(EmitParams(who, ps, G.NO_ARGS, false), Emit(who, b))
    case Cond(b, None) => EmitDisjunction(who, b)
    case Cond(b, Some(c)) => IfExp(EmitDisjunction(who, c.test), EmitDisjunction(who, b), Emit(who, c.orelse))
  }

  function EmitYield(who: Builder, y: YieldExpr): Expr
    decreases y
  {
    match y
    case FromExpr(e) => YieldFrom(Emit(who, e))
    case Val(None, _, _) => Yield(None)
    case Val(Some(e), rest, comma) =>
      var alone := rest == [] && !(who.V2? && comma);
      Yield(Some(if alone then EmitElem(who, e) else Tuple([EmitElem(who, e)] + EmitElems(who, rest))))
  }

  /** A `/` moves the parameters so far to the positional ones, a `*` makes those after it keyword-only, and
      an empty parameter is passed over. */
  function EmitParams(who: Builder, ps: seq<LambdaParam>, a: Arguments, kwonly: bool): Arguments
    decreases ps
  {
    if ps == [] then a
    else
      var p := ps[0];
      if p.kind == Some(Slash) then EmitParams(who, ps[1..], Slashed(who, a), kwonly)
      else if p.kind == Some(Star) then
        EmitParams(who, ps[1..], if p.name.Some? then a.(vararg := Some(Param(p.name.value, None))) else a, true)
      else if p.kind.Some? then EmitParams(who, ps[1..], a.(kwarg := Some(Param(TextOf(p.name), None))), kwonly)
      else if p.name.None? then EmitParams(who, ps[1..], a, kwonly)
      else EmitParams(who, ps[1..], G.AddParam(a, kwonly, Param(p.name.value, None), DefaultOf(who, p)), kwonly)
  }

  function Slashed(who: Builder, a: Arguments): Arguments {
    a.(posonly := (if who.Legacy? then a.posonly else []) + a.args, args := [])
  }

  function DefaultOf(who: Builder, p: LambdaParam): Option<Expr>
    decreases p
  {
    EmitMaybe(who, p.default)
  }

  function TextOf(n: Option<string>): string {
    match n case None => "" case Some(x) => x
  }

  function EmitMaybe(who: Builder, o: Option<Expression>): Option<Expr>
    decreases o
  {
    match o case None => None case Some(e) => Some(Emit(who, e))
  }

  function EmitDisjunction(who: Builder, d: Disjunction): Expr
    decreases d, 1
  {
    if d.tail == [] then EmitConjunction(who, d.head)
    else BoolOp(Or, [EmitConjunction(who, d.head)] + Conjunctions(who, d.tail))
  }

  function Conjunctions(who: Builder, cs: seq<Conjunction>): seq<Expr>
    decreases cs
  {
    if cs == [] then [] else [EmitConjunction(who, cs[0])] + Conjunctions(who, cs[1..])
  }

  function EmitConjunction(who: Builder, c: Conjunction): Expr
    decreases c, 1
  {
    if c.tail == [] then EmitInversion(who, c.head)
    else BoolOp(And, [EmitInversion(who, c.head)] + Inversions(who, c.tail))
  }

  function Inversions(who: Builder, ins: seq<Inversion>): seq<Expr>
    decreases ins
  {
    if ins == [] then [] else [EmitInversion(who, ins[0])] + Inversions(who, ins[1..])
  }

  function EmitInversion(who: Builder, i: Inversion): Expr
    decreases i, 1
  {
    match i
    case Negated(x) => UnaryOp(Not, EmitInversion(who, x))
    case Compared(c) => EmitChain(who, c)
  }

  function EmitChain(who: Builder, c: Chain): Expr
    decreases c, 1
  {
    if c.tail == [] then EmitNode(who, c.head) else Compare(EmitNode(who, c.head), Rights(who, c.tail))
  }

  function Rights(who: Builder, rs: seq<CmpRight>): seq<Comparison>
    decreases rs
  {
    if rs == [] then [] else [EmitRight(who, rs[0])] + Rights(who, rs[1..])
  }

  function EmitRight(who: Builder, r: CmpRight): Comparison
    decreases r
  {
    Comparison(OpOf(r), EmitNode(who, r.rhs))
  }

  /** cmpOp: the operator that the flags and the token spell. */
  function OpOf(r: CmpRight): CmpOp {
    Spelled(r.notIn, r.isOp, r.isNot, r.op)
  }

  function Spelled(notIn: bool, isOp: bool, isNot: bool, op: Tok): CmpOp {
    if notIn then NotIn
    else if isOp then (if isNot then IsNot else Is)
    else match op
      case OpNe => NotEq
      case OpLt => Lt
      case OpLe => LtE
      case OpGt => Gt
      case OpGe => GtE
      case OpEq => Eq
      case _ => In
  }

  function EmitNode(who: Builder, n: Node): Expr
    decreases n, 1
  {
    match n
    case Level(h, ts) => Fold(who, EmitNode(who, h), ts)
    case Sign(op, x) => UnaryOp(op, EmitNode(who, x))
    case Power(a, p, x) =>
      var base := if a then Await(EmitPrimary(who, p)) else EmitPrimary(who, p);
      if x.None? then base else BinOp(Pow, base, EmitNode(who, x.value))
  }

  function Fold(who: Builder, cur: Expr, ts: seq<Link>): Expr
    decreases ts
  {
    if ts == [] then cur else Fold(who, BinOp(ts[0].op, cur, EmitLink(who, ts[0])), ts[1..])
  }

  function EmitLink(who: Builder, l: Link): Expr
    decreases l
  {
    EmitNode(who, l.rhs)
  }

  // ----- primaries -----

  function EmitPrimary(who: Builder, p: Primary): Expr
    decreases p
  {
    EmitTrailers(who, EmitAtom(who, p.atom), p.trailers)
  }

  function EmitTrailers(who: Builder, cur: Expr, ts: seq<Trailer>): Expr
    decreases ts
  {
    if ts == [] then cur else EmitTrailers(who, ApplyTrailer(who, cur, ts[0]), ts[1..])
  }

  function ApplyTrailer(who: Builder, cur: Expr, t: Trailer): Expr
    decreases t
  {
    match t
    case Attr(a) => Attribute(cur, a)
    case CallOf(l) => var c := EmitCall(who, l); Call(cur, c.args, c.keywords)
    case SubOf(items, comma) =>
      if |items| != 1 then Subscript(cur, Tuple(EmitSubs(who, items)))
      else
        var item := EmitSub(who, items[0]);
        Subscript(cur, if who.Legacy? then (if items[0].StarSub? then Tuple([item]) else item)
                       else if comma || item.Starred? then Tuple([item]) else item)
  }

  /** A generator after an argument that is no plain expression is one of a placeholder. */
  function EmitCall(who: Builder, l: List<Argument>): G.CallArgs
    decreases l
  {
    match l.first
    case None => G.CallArgs([], [])
    case Some(a) =>
      if l.comp != [] then
        G.CallArgs([GeneratorExp(if a.PlainArg? then Emit(who, a.e) else PLACEHOLDER, EmitComps(who, l.comp))], [])
      else Joint(EmitArg(who, a), EmitArgs(who, l.rest))
  }

  function Joint(a: G.CallArgs, b: G.CallArgs): G.CallArgs {
    G.CallArgs(a.args + b.args, a.keywords + b.keywords)
  }

  function EmitArgs(who: Builder, l: seq<Argument>): G.CallArgs
    decreases l
  {
    if l == [] then G.CallArgs([], []) else Joint(EmitArg(who, l[0]), EmitArgs(who, l[1..]))
  }

  function EmitArg(who: Builder, a: Argument): G.CallArgs
    decreases a
  {
    match a
    case DStarArg(e) => G.CallArgs([], [Keyword(None, Emit(who, e))])
    case StarArg(e) => G.CallArgs([Starred(Emit(who, e))], [])
    case NamedArg(n, e) => G.CallArgs([], [Keyword(Some(n), Emit(who, e))])
    case PlainArg(e) => G.CallArgs([Emit(who, e)], [])
  }

  function EmitSubs(who: Builder, items: seq<Subscripted>): seq<Expr>
    decreases items
  {
    if items == [] then [] else [EmitSub(who, items[0])] + EmitSubs(who, items[1..])
  }

  function EmitSub(who: Builder, i: Subscripted): Expr
    decreases i
  {
    match i
    case StarSub(e) => Starred(Emit(who, e))
    case PlainSub(e, None) => Emit(who, e)
    case PlainSub(e, Some(s)) => Slice(Some(Emit(who, e)), EmitMaybe(who, s.upper), EmitStep(who, s.step))
    case BareSub(s) => Slice(None, EmitMaybe(who, s.upper), EmitStep(who, s.step))
  }

  function EmitStep(who: Builder, o: Option<Option<Expression>>): Option<Expr>
    decreases o
  {
    match o case None => None case Some(m) => EmitMaybe(who, m)
  }

  function EmitAtom(who: Builder, a: Atom): Expr
    decreases a
  {
    match a
    case AtomName(w) => EmitWord(w)
    case Number(c) => Constant(c)
    case Strings(ps) => Constant(CStr(if who.Legacy? then KindOf(ps) else FirstKind(ps), TextOfParts(ps)))
    case Ellipsis => Constant(CEllipsis)
    case ListLit(l) => EmitList(who, l)
    case BraceLit(l) => EmitBrace(who, l)
    case ParenLit(l) => EmitParen(who, l)
  }

  function EmitWord(w: Word): Expr {
    match w
    case KwNone => Constant(CNone)
    case KwTrue => Constant(CTrue)
    case KwFalse => Constant(CFalse)
    case _ => Name(G.WordText(w))
  }

  /** Bytes when any part is, and of the `u` kind when any part is. */
  function KindOf(ps: seq<Part>): StrKind {
    if exists p | p in ps :: p.kind == StrKind.Bytes then StrKind.Bytes
    else if exists p | p in ps :: p.kind == StrKind.Unicode then StrKind.Unicode
    else StrKind.Plain
  }

  function FirstKind(ps: seq<Part>): StrKind {
    if ps == [] then StrKind.Plain else ps[0].kind
  }

  function TextOfParts(ps: seq<Part>): string {
    if ps == [] then "" else ps[0].val + TextOfParts(ps[1..])
  }

  function EmitElem(who: Builder, e: Elem): Expr
    decreases e
  {
    if e.star then Starred(Emit(who, e.e)) else Emit(who, e.e)
  }

  function EmitElems(who: Builder, es: seq<Elem>): seq<Expr>
    decreases es
  {
    if es == [] then [] else [EmitElem(who, es[0])] + EmitElems(who, es[1..])
  }

  function EmitList(who: Builder, l: List<Elem>): Expr
    decreases l
  {
    match l.first
    case None => ListExpr([])
    case Some(e) =>
      if l.comp != [] then ListComp(EmitElem(who, e), EmitComps(who, l.comp))
        else ListExpr([EmitElem(who, e)] + EmitElems(who, l.rest))
  }

  /** A comma, or for the emitter a star, makes a tuple of one element. */
  function EmitParen(who: Builder, l: List<Elem>): Expr
    decreases l
  {
    match l.first
    case None => Tuple([])
    case Some(e) =>
      if l.comp != [] then GeneratorExp(EmitElem(who, e), EmitComps(who, l.comp))
      else if l.rest == [] && !l.comma && (who.V2? || !e.star) then EmitElem(who, e)
      else Tuple([EmitElem(who, e)] + EmitElems(who, l.rest))
  }

  /** The first item decides between a dictionary and a set. */
  function EmitBrace(who: Builder, l: List<Item>): Expr
    decreases l
  {
    match l.first
    case None => Dict([])
    case Some(i) =>
      var isDict := i.DStarItem? || (i.KeyItem? && i.value.Some?);
      if l.comp != [] then
        if isDict then DictComp(KeyOf(who, i), ValueOf(who, i), EmitComps(who, l.comp))
          else SetComp(EmitSetItem(who, i), EmitComps(who, l.comp))
      else if isDict then Dict(EmitDictItem(who, i) + EmitDictItems(who, l.rest))
      else Set([EmitSetItem(who, i)] + EmitSetItems(who, l.rest))
  }

  function KeyOf(who: Builder, i: Item): Expr
    decreases i
  {
    match i case KeyItem(k, _) => Emit(who, k) case _ => PLACEHOLDER
  }

  function ValueOf(who: Builder, i: Item): Expr
    decreases i
  {
    match i case KeyItem(_, Some(v)) => Emit(who, v) case _ => PLACEHOLDER
  }

  /** An item without a value is dropped. */
  function EmitDictItem(who: Builder, i: Item): seq<DictItem>
    decreases i
  {
    match i
    case DStarItem(e) => [DictItem(None, Emit(who, e))]
    case KeyItem(k, Some(v)) => [DictItem(Some(Emit(who, k)), Emit(who, v))]
    case _ => []
  }

  function EmitDictItems(who: Builder, l: seq<Item>): seq<DictItem>
    decreases l
  {
    if l == [] then [] else EmitDictItem(who, l[0]) + EmitDictItems(who, l[1..])
  }

  function EmitSetItem(who: Builder, i: Item): Expr
    decreases i
  {
    match i
    case StarItem(e) => Starred(Emit(who, e))
    case DStarItem(e) => Emit(who, e)
    case KeyItem(k, _) => Emit(who, k)
  }

  function EmitSetItems(who: Builder, l: seq<Item>): seq<Expr>
    decreases l
  {
    if l == [] then [] else [EmitSetItem(who, l[0])] + EmitSetItems(who, l[1..])
  }

  function EmitComps(who: Builder, cs: seq<CompFor>): seq<Comprehension>
    decreases cs
  {
    if cs == [] then [] else [EmitComp(who, cs[0])] + EmitComps(who, cs[1..])
  }

  function EmitComp(who: Builder, c: CompFor): Comprehension
    decreases c
  {
    Comprehension(EmitTargets(who, c.target), EmitDisjunction(who, c.iter), EmitIfs(who, c.ifs), c.isAsync)
  }

  function EmitIfs(who: Builder, ds: seq<Disjunction>): seq<Expr>
    decreases ds
  {
    if ds == [] then [] else [EmitDisjunction(who, ds[0])] + EmitIfs(who, ds[1..])
  }

  function EmitTargets(who: Builder, l: TargetList): Expr
    decreases l
  {
    if l.tail == [] && !l.comma then EmitTarget(who, l.head)
      else Tuple([EmitTarget(who, l.head)] + EmitTargetTail(who, l.tail))
  }

  function EmitTargetTail(who: Builder, l: seq<TargetAtom>): seq<Expr>
    decreases l
  {
    if l == [] then [] else [EmitTarget(who, l[0])] + EmitTargetTail(who, l[1..])
  }

  function EmitTarget(who: Builder, a: TargetAtom): Expr
    decreases a
  {
    if a.star then Starred(EmitNode(who, a.e)) else EmitNode(who, a.e)
  }

  // ----- the emitter, as it is written -----

  method EmitExpr(x: Expression) returns (e: Expr)
    ensures e == Emit(Legacy, x)
    decreases x, 1
  {
    match x
    case Yielded(y) => e := EmitYield(Legacy, y);
    case Named(w, v) =>
      var value := EmitExpr(v);
      e := NamedExpr(Name(G.WordText(w)), value);
    case LambdaOf(ps, b) =>
      var params := EmitArguments(ps);
      var body := EmitExpr(b);
      e := Lambda(params, body);
    case Cond(b, c) =>
      e := EmitOr(b);
      if c.Some? {
        var test := EmitOr(c.value.test);
        var orelse := EmitExpr(c.value.orelse);
        e := IfExp(test, e, orelse);
      }
  }

  /** The loop over the parameters of a lambda. */
  method EmitArguments(params: seq<LambdaParam>) returns (a: Arguments)
    ensures a == EmitParams(Legacy, params, G.NO_ARGS, false)
    decreases params
  {
    a := G.NO_ARGS;
    var seenStar := false;
    assert params[0..] == params;
    for i := 0 to |params|
      invariant EmitParams(Legacy, params[i..], a, seenStar) == EmitParams(Legacy, params, G.NO_ARGS, false)
    {
      var p := params[i];
      assert params[i..][0] == p && params[i..][1..] == params[i + 1..];
      if p.kind == Some(Slash) {
        a := a.(posonly := a.posonly + a.args, args := []);
      } else if p.kind == Some(Star) {
        seenStar := true;
        if p.name.Some? {
          a := a.(vararg := Some(Param(p.name.value, None)));
        }
      } else if p.kind.Some? {
        a := a.(kwarg := Some(Param(TextOf(p.name), None)));
      } else if p.name.Some? {
        a := G.AddParam(a, seenStar, Param(p.name.value, None), DefaultOf(Legacy, p));
      }
    }
    assert params[|params|..] == [];
  }

  method EmitOr(d: Disjunction) returns (e: Expr)
    ensures e == EmitDisjunction(Legacy, d)
  {
    e := EmitAnd(d.head);
    if |d.tail| == 0 {
      return;
    }
    var values := [e];
    assert d.tail[0..] == d.tail;
    for i := 0 to |d.tail|
      invariant values + Conjunctions(Legacy, d.tail[i..]) == [e] + Conjunctions(Legacy, d.tail)
    {
      var v := EmitAnd(d.tail[i]);
      assert d.tail[i..][0] == d.tail[i] && d.tail[i..][1..] == d.tail[i + 1..];
      assert values + ([v] + Conjunctions(Legacy, d.tail[i + 1..])) ==
        (values + [v]) + Conjunctions(Legacy, d.tail[i + 1..]);
      values := values + [v];
    }
    e := BoolOp(Or, values);
  }

  method EmitAnd(c: Conjunction) returns (e: Expr)
    ensures e == EmitConjunction(Legacy, c)
  {
    e := EmitNot(c.head);
    if |c.tail| == 0 {
      return;
    }
    var values := [e];
    assert c.tail[0..] == c.tail;
    for i := 0 to |c.tail|
      invariant values + Inversions(Legacy, c.tail[i..]) == [e] + Inversions(Legacy, c.tail)
    {
      var v := EmitNot(c.tail[i]);
      assert c.tail[i..][0] == c.tail[i] && c.tail[i..][1..] == c.tail[i + 1..];
      assert values + ([v] + Inversions(Legacy, c.tail[i + 1..])) ==
        (values + [v]) + Inversions(Legacy, c.tail[i + 1..]);
      values := values + [v];
    }
    e := BoolOp(And, values);
  }

  method EmitNot(i: Inversion) returns (e: Expr)
    ensures e == EmitInversion(Legacy, i)
  {
    match i
    case Negated(x) =>
      var y := EmitNot(x);
      e := UnaryOp(Not, y);
    case Compared(c) => e := EmitCompare(c);
  }

  method EmitCompare(c: Chain) returns (e: Expr)
    ensures e == EmitChain(Legacy, c)
  {
    e := EmitLevel(c.head);
    if |c.tail| == 0 {
      return;
    }
    var rest: seq<Comparison> := [];
    assert c.tail[0..] == c.tail;
    for i := 0 to |c.tail|
      invariant rest + Rights(Legacy, c.tail[i..]) == Rights(Legacy, c.tail)
    {
      var right := EmitLevel(c.tail[i].rhs);
      assert c.tail[i..][0] == c.tail[i] && c.tail[i..][1..] == c.tail[i + 1..];
      var r := Comparison(OpOf(c.tail[i]), right);
      assert rest + ([r] + Rights(Legacy, c.tail[i + 1..])) == (rest + [r]) + Rights(Legacy, c.tail[i + 1..]);
      rest := rest + [r];
    }
    e := Compare(e, rest);
  }

  /** A list of operands is folded to the left. */
  method EmitLevel(n: Node) returns (e: Expr)
    ensures e == EmitNode(Legacy, n)
    decreases n
  {
    match n
    case Level(h, ts) =>
      var cur := EmitLevel(h);
      ghost var first := cur;
      assert ts[0..] == ts;
      for i := 0 to |ts|
        invariant Fold(Legacy, cur, ts[i..]) == Fold(Legacy, first, ts)
      {
        var right := EmitLevel(ts[i].rhs);
        assert ts[i..][0] == ts[i] && ts[i..][1..] == ts[i + 1..];
        cur := BinOp(ts[i].op, cur, right);
      }
      e := cur;
    case Sign(op, x) =>
      var y := EmitLevel(x);
      e := UnaryOp(op, y);
    case Power(a, p, x) =>
      var base := EmitTrailing(p);
      if a {
        base := Await(base);
      }
      if x.None? {
        return base;
      }
      var y := EmitLevel(x.value);
      e := BinOp(Pow, base, y);
  }

  /** The loop over the trailers of a primary. */
  method EmitTrailing(p: Primary) returns (e: Expr)
    ensures e == EmitPrimary(Legacy, p)
    decreases p
  {
    var cur := EmitAtom(Legacy, p.atom);
    assert p.trailers[0..] == p.trailers;
    for i := 0 to |p.trailers|
      invariant EmitTrailers(Legacy, cur, p.trailers[i..]) == EmitPrimary(Legacy, p)
    {
      assert p.trailers[i..][0] == p.trailers[i] && p.trailers[i..][1..] == p.trailers[i + 1..];
      cur := ApplyTrailer(Legacy, cur, p.trailers[i]);
    }
    assert p.trailers[|p.trailers|..] == [];
    e := cur;
  }
}
