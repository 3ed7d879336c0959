/** What reading printed statements gives back.

    WfStmt says that a statement is one Python's grammar can produce; ReStmt is the statement
    that the v2 parser builds from the printed form, or None where it rejects it. */
module StmtReading {
  import opened Tokens
  import opened Ast
  import opened Unparse
  import opened Reading
  import opened StmtGrammar
  import opened UnparseStmt

  predicate WfBody(b: seq<Stmt>)
    decreases b, 1
  {
    b == [] || (WfStmt(b[0]) && WfBody(b[1..]))
  }

  predicate WfStmt(s: Stmt)
    decreases s, 1
  {
    match s
    case Pass | Break | Continue => true
    case ExprStmt(e) => WfElt(e)
    case Return(o) => o.Some? ==> WfElt(o.value)
    case AssignStmt(ts, v) => ts != [] && WfElts(ts) && WfElt(v)
    case AugStmt(t, _, v) => Wf(t) && WfElt(v)
    case AnnStmt(t, ann, v, _) => Wf(t) && Wf(ann) && WfOpt(v)
    case Del(es) => es != [] && WfAll(es)
    case Assert(e, m) => Wf(e) && WfOpt(m)
    case Raise(e, c) => WfOpt(e) && WfOpt(c) && (c.Some? ==> e.Some?)
    case Import(names) => names != [] && forall a | a in names :: a.path != []
    case ImportFrom(level, source, names) =>
      && (level > 0 || source != []) && names != [] && (forall a | a in names :: |a.path| == 1)
      && (IsStar(names) ==> names[0].asname == None)
    case Declare(_, ids) => ids != []
    case If(test, b, o) => Wf(test) && WfBody(b) && WfBody(o)
    case While(test, b, o) => Wf(test) && WfBody(b) && WfBody(o)
    case For(_, t, i, b, o) => WfTarget(t) && WfElt(i) && WfBody(b) && WfBody(o)
    case Try(star, b, hs, o, f) =>
      && WfBody(b) && WfHandlers(hs) && WfBody(o) && WfBody(f)
      && (hs == [] ==> f != [] && !star)
    case FunctionDef(_, ds, _, ps, r, b) => WfAll(ds) && WfParams(ps) && WfOpt(r) && WfBody(b)
    case ClassDef(ds, _, bs, kws, b) => WfAll(ds) && WfElts(bs) && WfKeywords(kws) && WfBody(b)
  }

  predicate WfHandlers(hs: seq<Handler>)
    decreases hs
  {
    hs == [] || (WfHandler(hs[0]) && WfHandlers(hs[1..]))
  }

  predicate WfHandler(h: Handler)
    decreases h
  {
    WfOpt(h.typ) && (h.name.Some? ==> h.typ.Some?) && WfBody(h.body)
  }

  /** Parameters of a definition: an annotation may be starred. */
  predicate WfParams(a: Arguments) {
    && WfParamList(a.posonly) && WfParamList(a.args) && WfParamList(a.kwonly)
    && (a.vararg.Some? ==> WfParam(a.vararg.value)) && (a.kwarg.Some? ==> WfParam(a.kwarg.value))
    && |a.defaults| <= PosCount(a)
    && |a.kwdefaults| == |a.kwonly|
    && WfAll(a.defaults) && WfOpts(a.kwdefaults)
  }

  predicate WfParam(p: Param) {
    p.ann.Some? ==> WfElt(p.ann.value)
  }

  predicate WfParamList(ps: seq<Param>) {
    ps == [] || (WfParam(ps[0]) && WfParamList(ps[1..]))
  }

  // ----- the statement that comes back -----

  /** The line of a simple statement that the parser takes for a match statement or a type alias. */
  predicate SoftStart(s: Stmt) {
    Simple(s) && var t := PrintSimple(s, Cons(Newline, End)); MatchStart(t) || TypeStart(t)
  }

  /** The line of a simple statement that is taken for a type alias. */
  predicate TypeLine(s: Stmt) {
    Simple(s) && TypeStart(PrintSimple(s, Cons(Newline, End)))
  }

  function ReBody(b: seq<Stmt>): Option<seq<Stmt>>
    decreases b, 1
  {
    if b == [] then Some([])
    else var s :- ReStmt(b[0]); var r :- ReBody(b[1..]); Some([s] + r)
  }

  /** A block; an empty one has been written `pass`. */
  function ReSuite(b: seq<Stmt>): Option<seq<Stmt>>
    decreases b, 2
  {
    if b == [] then Some([Pass]) else ReBody(b)
  }

  function ReSimple(s: Stmt): Option<Stmt>
  {
    match s
    case Pass | Break | Continue => Some(s)
    case ExprStmt(e) => var e' :- Reparse(e); Some(ExprStmt(e'))
    case Return(o) => var o' :- ReOpt(o); Some(Return(o'))
    case AssignStmt(ts, v) =>
      var ts' :- ReAll(ts);
      var v' :- Reparse(v);
      if ValidTargets(ts') then Some(AssignStmt(ts', v')) else None
    case AugStmt(t, op, v) =>
      var t' :- Reparse(t);
      var v' :- Reparse(v);
      if ValidTarget(t') then Some(AugStmt(t', op, v')) else None
    case AnnStmt(t, ann, v, _) =>
      var t' :- Reparse(t);
      var ann' :- Reparse(ann);
      var v' :- ReOpt(v);
      if ValidTarget(t') then Some(AnnStmt(t', ann', v', t'.Name?)) else None
    case Del(es) => var es' :- ReAll(es); if ValidTargets(es') then Some(Del(es')) else None
    case Assert(e, m) => var e' :- Reparse(e); var m' :- ReOpt(m); Some(Assert(e', m'))
    case Raise(e, c) => var e' :- ReOpt(e); var c' :- ReOpt(c); Some(Raise(e', c'))
    case Import(_) | ImportFrom(_, _, _) | Declare(_, _) => Some(s)
    case _ => None
  }

  function ReStmt(s: Stmt): Option<Stmt>
    decreases s, 1
  {
    match s
    case If(test, b, o) =>
      var test' :- Reparse(test); var b' :- ReSuite(b); var o' :- ReBody(o); Some(If(test', b', o'))
    case While(test, b, o) =>
      var test' :- Reparse(test); var b' :- ReSuite(b); var o' :- ReBody(o); Some(While(test', b', o'))
    case For(a, t, i, b, o) =>
      var t' :- ReTarget(t); var i' :- Reparse(i); var b' :- ReSuite(b); var o' :- ReBody(o); Some(For(a, t', i', b',
        o'))
    case Try(star, b, hs, o, f) =>
      var b' :- ReSuite(b); var hs' :- ReHandlers(hs); var o' :- ReBody(o); var f' :- ReBody(f);
      Some(Try(star, b', hs', o', f'))
    case FunctionDef(a, ds, n, ps, r, b) =>
      var ds' :- ReAll(ds); var ps' :- ReParams(ps); var r' :- ReOpt(r); var b' :- ReSuite(b);
      Some(FunctionDef(a, ds', n, ps', r', b'))
    case ClassDef(ds, n, bs, kws, b) =>
      var ds' :- ReAll(ds); var bs' :- ReAll(bs); var kws' :- ReKeywords(kws); var b' :- ReSuite(b);
      Some(ClassDef(ds', n, bs', kws', b'))
    case _ => if SoftStart(s) then None else ReSimple(s)
  }

  function ReHandlers(hs: seq<Handler>): Option<seq<Handler>>
    decreases hs
  {
    if hs == [] then Some([])
    else var h :- ReHandler(hs[0]); var r :- ReHandlers(hs[1..]); Some([h] + r)
  }

  function ReHandler(h: Handler): Option<Handler>
    decreases h
  {
    var t :- ReOpt(h.typ);
    var b :- ReSuite(h.body);
    Some(Handler(t, h.name, b))
  }

  function ReParams(a: Arguments): Option<Arguments> {
    var po :- ReParamList(a.posonly);
    var ar :- ReParamList(a.args);
    var ds :- ReAll(a.defaults);
    var va :- ReParamOpt(a.vararg);
    var ko :- ReParamList(a.kwonly);
    var kds :- ReOpts(a.kwdefaults);
    var kw :- ReParamOpt(a.kwarg);
    Some(Arguments(po, ar, ds, va, ko, kds, kw))
  }

  function ReParam(p: Param): Option<Param> {
    var ann :- ReOpt(p.ann);
    Some(Param(p.name, ann))
  }

  function ReParamOpt(o: Option<Param>): Option<Option<Param>> {
    match o
    case None => Some(None)
    case Some(p) => var p' :- ReParam(p); Some(Some(p'))
  }

  function ReParamList(ps: seq<Param>): Option<seq<Param>> {
    if ps == [] then Some([])
    else var p :- ReParam(ps[0]); var r :- ReParamList(ps[1..]); Some([p] + r)
  }
}
