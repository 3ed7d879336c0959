/** What reading a printed expression gives back.

    Wf says that a tree is one Python's grammar can produce.  Reparse(e) is the tree the v2
    parser builds from the printed form of e, or None where the parser rejects it; it differs
    from e exactly at the shapes listed in Faithful. */
module Reading {
  import opened Tokens
  import opened Ast
  import opened Unparse

  // ----- well-formed trees -----

  predicate Wf(e: Expr)
    decreases e, 2
  {
    match e
    case Name(_) => true
    case Constant(_) => true
    case BoolOp(_, vs) => |vs| >= 2 && WfAll(vs)
    case NamedExpr(t, v) => t.Name? && Wf(v)
    case BinOp(_, l, r) => Wf(l) && Wf(r)
    case UnaryOp(_, x) => Wf(x)
    case Lambda(ps, b) => WfLambdaArgs(ps) && Wf(b)
    case IfExp(t, b, o) => Wf(t) && Wf(b) && Wf(o)
    case Dict(items) => WfItems(items)
    case Set(es) => WfElts(es)
    case ListComp(x, gs) => Wf(x) && gs != [] && WfGens(gs)
    case SetComp(x, gs) => Wf(x) && gs != [] && WfGens(gs)
    case DictComp(key, x, gs) => Wf(key) && Wf(x) && gs != [] && WfGens(gs)
    case GeneratorExp(x, gs) => Wf(x) && gs != [] && WfGens(gs)
    case Await(x) => Wf(x)
    case Yield(v) => WfOpt(v)
    case YieldFrom(x) => Wf(x)
    case Compare(l, cs) => Wf(l) && cs != [] && WfComparisons(cs)
    case Call(f, args, kws) => Wf(f) && WfElts(args) && WfKeywords(kws)
    case Attribute(v, _) => Wf(v)
    case Subscript(v, s) => Wf(v) && WfSlice(s)
    case ListExpr(es) => WfElts(es)
    case Tuple(es) => WfElts(es)
    case Starred(_) => false
    case Slice(_, _, _) => false
  }

  predicate WfOpt(o: Option<Expr>)
    decreases o
  {
    o.Some? ==> Wf(o.value)
  }

  predicate WfAll(es: seq<Expr>)
    decreases es
  {
    es == [] || (Wf(es[0]) && WfAll(es[1..]))
  }

  /** An element of a display or an argument: an expression or a starred one. */
  predicate WfElt(e: Expr)
    decreases e, 3
  {
    if e.Starred? then Wf(e.starred) else Wf(e)
  }

  predicate WfElts(es: seq<Expr>)
    decreases es
  {
    es == [] || (WfElt(es[0]) && WfElts(es[1..]))
  }

  predicate WfSub(e: Expr)
    decreases e, 4
  {
    if e.Slice? then WfOpt(e.lower) && WfOpt(e.upper) && WfOpt(e.step) else WfElt(e)
  }

  predicate WfSubs(es: seq<Expr>)
    decreases es
  {
    es == [] || (WfSub(es[0]) && WfSubs(es[1..]))
  }

  predicate WfSlice(s: Expr)
    decreases s, 5
  {
    if s.Tuple? then WfSubs(s.telts) else if s.Slice? then WfSub(s) else Wf(s)
  }

  predicate WfComparisons(cs: seq<Comparison>)
    decreases cs
  {
    cs == [] || (WfComparison(cs[0]) && WfComparisons(cs[1..]))
  }

  predicate WfComparison(c: Comparison)
    decreases c
  {
    Wf(c.right)
  }

  predicate WfItems(items: seq<DictItem>)
    decreases items
  {
    items == [] || (WfItem(items[0]) && WfItems(items[1..]))
  }

  predicate WfItem(it: DictItem)
    decreases it
  {
    WfOpt(it.key) && Wf(it.value)
  }

  predicate WfKeywords(kws: seq<Keyword>)
    decreases kws
  {
    kws == [] || (WfKeyword(kws[0]) && WfKeywords(kws[1..]))
  }

  predicate WfKeyword(kw: Keyword)
    decreases kw
  {
    Wf(kw.value)
  }

  predicate WfGens(gs: seq<Comprehension>)
    decreases gs
  {
    gs == [] || (WfGen(gs[0]) && WfGens(gs[1..]))
  }

  predicate WfGen(g: Comprehension)
    decreases g
  {
    WfTarget(g.target) && Wf(g.iter) && WfAll(g.ifs)
  }

  /** Targets of comprehensions and `for`: names, attributes and subscripts of anything, lists of
      targets, starred targets, and tuples; inside parentheses a tuple may hold any expressions. */
  predicate WfTarget(e: Expr)
    decreases e, 3
  {
    if e.Tuple? && |e.telts| >= 2 then WfTargets(e.telts) else WfTargetAtom(e)
  }

  predicate WfTargetAtom(e: Expr)
    decreases e, 2
  {
    match e
    case Name(_) => true
    case Attribute(v, _) => Wf(v)
    case Subscript(v, s) => Wf(v) && WfSlice(s)
    case Starred(x) => WfTargetAtom(x)
    case ListExpr(es) => WfTargets(es)
    case Tuple(es) => WfElts(es)
    case _ => false
  }

  predicate WfTargets(es: seq<Expr>)
    decreases es
  {
    es == [] || (WfTargetAtom(es[0]) && WfTargets(es[1..]))
  }

  predicate WfLambdaArgs(a: Arguments)
    decreases a
  {
    && NoAnns(a.posonly) && NoAnns(a.args) && NoAnns(a.kwonly)
    && (a.vararg.Some? ==> a.vararg.value.ann.None?)
    && (a.kwarg.Some? ==> a.kwarg.value.ann.None?)
    && |a.defaults| <= PosCount(a)
    && |a.kwdefaults| == |a.kwonly|
    && WfAll(a.defaults) && WfOpts(a.kwdefaults)
  }

  predicate NoAnns(ps: seq<Param>) {
    forall p | p in ps :: p.ann.None?
  }

  predicate WfOpts(os: seq<Option<Expr>>)
    decreases os
  {
    os == [] || (WfOpt(os[0]) && WfOpts(os[1..]))
  }

  // ----- the tree that comes back -----

  function Reparse(e: Expr): Option<Expr>
    decreases e, 2
  {
    match e
    case Name(_) => Some(e)
    case Constant(_) => Some(e)
    case BoolOp(op, vs) => var vs' :- ReAll(vs); Some(BoolOp(op, vs'))
    case NamedExpr(t, v) => var v' :- Reparse(v); Some(NamedExpr(t, v'))
    case BinOp(op, l, r) =>
      var l' :- Reparse(l);
      var r' :- Reparse(r);
      if op == Pow && l.Await? then Some(Await(BinOp(Pow, l'.awaited, r')))
      else Some(BinOp(op, l', r'))
    case UnaryOp(op, x) => var x' :- Reparse(x); Some(UnaryOp(op, x'))
    case Lambda(ps, b) => var ps' :- ReArgs(ps); var b' :- Reparse(b); Some(Lambda(ps', b'))
    case IfExp(t, b, o) =>
      var t' :- Reparse(t);
      var b' :- Reparse(b);
      var o' :- Reparse(o);
      if t.NamedExpr? then None
      else if b.NamedExpr? then Some(NamedExpr(b'.target, IfExp(t', b'.nvalue, o')))
      else Some(IfExp(t', b', o'))
    case Dict(items) => var is' :- ReItems(items); Some(Dict(is'))
    case Set(es) =>
      if es == [] then Some(Call(Name("set"), [], [])) else var es' :- ReAll(es); Some(Set(es'))
    case ListComp(x, gs) => var x' :- Reparse(x); var gs' :- ReGens(gs); Some(ListComp(x', gs'))
    case SetComp(x, gs) => var x' :- Reparse(x); var gs' :- ReGens(gs); Some(SetComp(x', gs'))
    case DictComp(key, x, gs) =>
      var k' :- Reparse(key); var x' :- Reparse(x); var gs' :- ReGens(gs); Some(DictComp(k', x', gs'))
    case GeneratorExp(x, gs) => var x' :- Reparse(x); var gs' :- ReGens(gs); Some(GeneratorExp(x', gs'))
    case Await(x) => var x' :- Reparse(x); Some(Await(x'))
    case Yield(v) => var v' :- ReOpt(v); Some(Yield(v'))
    case YieldFrom(x) => var x' :- Reparse(x); Some(YieldFrom(x'))
    case Compare(l, cs) => var l' :- Reparse(l); var cs' :- ReComparisons(cs); Some(Compare(l', cs'))
    case Call(f, args, kws) =>
      var f' :- Reparse(f); var args' :- ReAll(args); var kws' :- ReKeywords(kws); Some(Call(f', args', kws'))
    case Attribute(v, a) => var v' :- Reparse(v); Some(Attribute(v', a))
    case Subscript(v, s) => var v' :- Reparse(v); var s' :- ReSlice(s); Some(Subscript(v', s'))
    case Starred(x) => var x' :- Reparse(x); Some(Starred(x'))
    case ListExpr(es) => var es' :- ReAll(es); Some(ListExpr(es'))
    case Tuple(es) => var es' :- ReAll(es); Some(Tuple(es'))
    case Slice(lo, up, st) =>
      var lo' :- ReOpt(lo); var up' :- ReOpt(up); var st' :- ReOpt(st); Some(Slice(lo', up', st'))
  }

  /** `a[1:2,]` prints as `a[(1:2,)]`, which the parser rejects. */
  function ReSlice(s: Expr): Option<Expr>
    decreases s, 3
  {
    if s.Tuple? && |s.telts| == 1 && s.telts[0].Slice? then None else Reparse(s)
  }

  function ReOpt(o: Option<Expr>): Option<Option<Expr>>
    decreases o
  {
    match o
    case None => Some(None)
    case Some(x) => var x' :- Reparse(x); Some(Some(x'))
  }

  function ReAll(es: seq<Expr>): Option<seq<Expr>>
    decreases es
  {
    if es == [] then Some([])
    else var x :- Reparse(es[0]); var xs :- ReAll(es[1..]); Some([x] + xs)
  }

  function ReComparisons(cs: seq<Comparison>): Option<seq<Comparison>>
    decreases cs
  {
    if cs == [] then Some([])
    else var c :- ReComparison(cs[0]); var r :- ReComparisons(cs[1..]); Some([c] + r)
  }

  function ReComparison(c: Comparison): Option<Comparison>
    decreases c
  {
    var x :- Reparse(c.right);
    Some(Comparison(c.op, x))
  }

  function ReItems(items: seq<DictItem>): Option<seq<DictItem>>
    decreases items
  {
    if items == [] then Some([])
    else var it :- ReItem(items[0]); var r :- ReItems(items[1..]); Some([it] + r)
  }

  function ReItem(it: DictItem): Option<DictItem>
    decreases it
  {
    var k :- ReOpt(it.key);
    var v :- Reparse(it.value);
    Some(DictItem(k, v))
  }

  function ReKeywords(kws: seq<Keyword>): Option<seq<Keyword>>
    decreases kws
  {
    if kws == [] then Some([])
    else var kw :- ReKeyword(kws[0]); var r :- ReKeywords(kws[1..]); Some([kw] + r)
  }

  function ReKeyword(kw: Keyword): Option<Keyword>
    decreases kw
  {
    var v :- Reparse(kw.value);
    Some(Keyword(kw.arg, v))
  }

  function ReGens(gs: seq<Comprehension>): Option<seq<Comprehension>>
    decreases gs
  {
    if gs == [] then Some([])
    else var g :- ReGen(gs[0]); var r :- ReGens(gs[1..]); Some([g] + r)
  }

  function ReGen(g: Comprehension): Option<Comprehension>
    decreases g
  {
    var t :- ReTarget(g.target);
    var it :- Reparse(g.iter);
    var ifs :- ReAll(g.ifs);
    Some(Comprehension(t, it, ifs, g.isAsync))
  }

  /** A target.  The target parser reads a chain of attributes and subscripts from a name on, and any
      primary from an opening parenthesis on; a word of the language counts as a name. */
  function ReTarget(e: Expr): Option<Expr>
    decreases e, 5
  {
    if e.Tuple? && |e.telts| >= 2 then var es' :- ReTargets(e.telts); Some(Tuple(es')) else ReTargetAtom(e)
  }

  function ReTargetAtom(e: Expr): Option<Expr>
    decreases e, 4
  {
    match e
    case Starred(x) => var x' :- ReTargetAtom(x); Some(Starred(x'))
    case ListExpr(es) => var es' :- ReTargets(es); Some(ListExpr(es'))
    case Attribute(_, _) | Subscript(_, _) => if LeadsParen(e) then Reparse(e) else ReChain(e)
    case _ => Reparse(e)
  }

  function ReTargets(es: seq<Expr>): Option<seq<Expr>>
    decreases es
  {
    if es == [] then Some([])
    else var x :- ReTargetAtom(es[0]); var xs :- ReTargets(es[1..]); Some([x] + xs)
  }

  function ReChain(e: Expr): Option<Expr>
    decreases e, 3
  {
    match e
    case Name(_) => Some(e)
    case Constant(CNone) => Some(Name("None"))
    case Constant(CTrue) => Some(Name("True"))
    case Constant(CFalse) => Some(Name("False"))
    case Attribute(v, a) => var v' :- ReChain(v); Some(Attribute(v', a))
    case Subscript(v, s) => var v' :- ReChain(v); var s' :- ReSlice(s); Some(Subscript(v', s'))
    case _ => None
  }

  /** The printed form of e, when it has no parentheses of its own, begins with one. */
  predicate LeadsParen(e: Expr) {
    match e
    case Attribute(v, _) => (v.Constant? && v.c.CInt?) || Parens(v, P_ATOM) || LeadsParen(v)
    case Subscript(v, _) => Parens(v, P_ATOM) || LeadsParen(v)
    case Call(f, _, _) => Parens(f, P_ATOM) || LeadsParen(f)
    case GeneratorExp(_, _) | Yield(_) | YieldFrom(_) => true
    case Tuple(es) => es == []
    case _ => false
  }

  function ReOpts(os: seq<Option<Expr>>): Option<seq<Option<Expr>>>
    decreases os
  {
    if os == [] then Some([])
    else var o :- ReOpt(os[0]); var r :- ReOpts(os[1..]); Some([o] + r)
  }

  /** Parameters of a lambda: only the defaults hold expressions. */
  function ReArgs(a: Arguments): Option<Arguments>
    decreases a
  {
    var ds :- ReAll(a.defaults);
    var kds :- ReOpts(a.kwdefaults);
    Some(a.(defaults := ds, kwdefaults := kds))
  }
}
