/** Which names a piece of syntax binds and reads (section 4.2.1 of the Python Language
    Reference), and in which scope.  `bound` and `noted` are of the scope the syntax stands in;
    `walrus` are names bound by `:=`, which belong to the nearest scope that is not a
    comprehension; `nested` are the scopes that the syntax opens, in order. */
module Bindings {
  import opened Tokens
  import opened Ast
  import opened Scopes

  /** A name is read, or declared global or nonlocal. */
  datatype Note = Note(flag: Flag, name: string)

  datatype Names = Names(bound: set<string>, noted: set<Note>, walrus: set<string>, nested: seq<Nest>)

  /** A scope with what is bound, read and declared in it, and the scopes inside it. */
  datatype Nest = Nest(kind: Kind, bound: set<string>, noted: set<Note>, nested: seq<Nest>)

  const NOTHING := Names({}, {}, {}, [])

  function Join(a: Names, b: Names): Names {
    Names(a.bound + b.bound, a.noted + b.noted, a.walrus + b.walrus, a.nested + b.nested)
  }

  function Bind(n: string): Names {
    Names(Just(n), {}, {}, [])
  }

  function Use(n: string): Names {
    Names({}, if n == "" then {} else {Note(FUsed, n)}, {}, [])
  }

  /** A scope of its own around ns; a walrus in a comprehension binds further out. */
  function Closed(kind: Kind, ns: Names): Names {
    if kind == CompScope then Names({}, {}, ns.walrus, [Nest(kind, ns.bound, ns.noted, ns.nested)])
    else Names({}, {}, {}, [Nest(kind, ns.bound + ns.walrus, ns.noted, ns.nested)])
  }

  /** The builder ignores empty names. */
  function Just(n: string): set<string> {
    if n == "" then {} else {n}
  }

  function Reads(e: Expr): Names
    decreases e, 1
  {
    match e
    case Name(id) => Use(id)
    case Constant(_) => NOTHING
    case BoolOp(_, vs) => ReadsAll(vs)
    case NamedExpr(t, v) => Join(Reads(v), Names({}, {}, if t.Name? then Just(t.id) else {}, []))
    case BinOp(_, l, r) => Join(Reads(l), Reads(r))
    case UnaryOp(_, x) => Reads(x)
    case Lambda(ps, b) => Closed(LambdaScope, Join(ParamNames(ps), Reads(b)))
    case IfExp(t, b, o) => Join(Join(Reads(t), Reads(b)), Reads(o))
    case Dict(items) => Join(ReadsKeys(items), ReadsValues(items))
    case Set(es) => ReadsAll(es)
    case ListComp(x, gs) => Outside(gs, Reads(x))
    case SetComp(x, gs) => Outside(gs, Reads(x))
    case DictComp(k, x, gs) => Outside(gs, Join(Reads(k), Reads(x)))
    case GeneratorExp(x, gs) => Outside(gs, Reads(x))
    case Await(x) => Reads(x)
    case Yield(v) => ReadsOpt(v)
    case YieldFrom(x) => Reads(x)
    case Compare(l, cs) => Join(Reads(l), ReadsComparisons(cs))
    case Call(f, args, kws) => Join(Join(Reads(f), ReadsAll(args)), ReadsKeywords(kws))
    case Attribute(v, _) => Reads(v)
    case Subscript(v, s) => Join(Reads(v), Reads(s))
    case Starred(x) => Reads(x)
    case ListExpr(es) => ReadsAll(es)
    case Tuple(es) => ReadsAll(es)
    case Slice(lo, up, st) => Join(Join(ReadsOpt(lo), ReadsOpt(up)), ReadsOpt(st))
  }

  /** Of a comprehension, the enclosing scope sees the first iterable; the rest has a scope of
      its own. */
  function Outside(gs: seq<Comprehension>, elt: Names): Names
    decreases gs, 5
  {
    if gs == [] then elt
    else Join(FirstIter(gs[0]), Closed(CompScope, Join(Inside(gs), elt)))
  }

  function FirstIter(g: Comprehension): Names
    decreases g
  {
    Reads(g.iter)
  }

  /** What the scope of a comprehension sees: its first target and conditions, and the other
      clauses whole. */
  function Inside(gs: seq<Comprehension>): Names
    requires gs != []
    decreases gs, 4
  {
    Join(FirstClause(gs[0]), Clauses(gs[1..]))
  }

  function FirstClause(g: Comprehension): Names
    decreases g, 1
  {
    Join(Targets(g.target), ReadsAll(g.ifs))
  }

  function Clauses(gs: seq<Comprehension>): Names
    decreases gs, 3
  {
    if gs == [] then NOTHING else Join(Clause(gs[0]), Clauses(gs[1..]))
  }

  function Clause(g: Comprehension): Names
    decreases g, 2
  {
    Join(Reads(g.iter), FirstClause(g))
  }

  function ReadsOpt(o: Option<Expr>): Names
    decreases o
  {
    match o case None => NOTHING case Some(x) => Reads(x)
  }

  function ReadsAll(es: seq<Expr>): Names
    decreases es
  {
    if es == [] then NOTHING else Join(Reads(es[0]), ReadsAll(es[1..]))
  }

  function ReadsComparisons(cs: seq<Comparison>): Names
    decreases cs
  {
    if cs == [] then NOTHING else Join(ReadsRight(cs[0]), ReadsComparisons(cs[1..]))
  }

  function ReadsRight(c: Comparison): Names
    decreases c
  {
    Reads(c.right)
  }

  function ReadsKeys(items: seq<DictItem>): Names
    decreases items
  {
    if items == [] then NOTHING else Join(ReadsKey(items[0]), ReadsKeys(items[1..]))
  }

  function ReadsKey(it: DictItem): Names
    decreases it
  {
    ReadsOpt(it.key)
  }

  function ReadsValues(items: seq<DictItem>): Names
    decreases items
  {
    if items == [] then NOTHING else Join(ReadsValue(items[0]), ReadsValues(items[1..]))
  }

  function ReadsValue(it: DictItem): Names
    decreases it
  {
    Reads(it.value)
  }

  function ReadsKeywords(kws: seq<Keyword>): Names
    decreases kws
  {
    if kws == [] then NOTHING else Join(ReadsKeyword(kws[0]), ReadsKeywords(kws[1..]))
  }

  function ReadsKeyword(kw: Keyword): Names
    decreases kw
  {
    Reads(kw.value)
  }

  /** An assignment target: names are bound, everything else is read. */
  function Targets(e: Expr): Names
    decreases e, 2
  {
    match e
    case Name(id) => Bind(id)
    case Tuple(es) => TargetsAll(es)
    case ListExpr(es) => TargetsAll(es)
    case Starred(x) => Targets(x)
    case _ => Reads(e)
  }

  function TargetsAll(es: seq<Expr>): Names
    decreases es
  {
    if es == [] then NOTHING else Join(Targets(es[0]), TargetsAll(es[1..]))
  }

  /** The names that an augmented assignment reads besides binding them. */
  function AugReads(e: Expr): Names
    decreases e, 2
  {
    match e
    case Name(id) => Use(id)
    case Tuple(es) => AugReadsAll(es)
    case ListExpr(es) => AugReadsAll(es)
    case Starred(x) => AugReads(x)
    case _ => NOTHING
  }

  function AugReadsAll(es: seq<Expr>): Names
    decreases es
  {
    if es == [] then NOTHING else Join(AugReads(es[0]), AugReadsAll(es[1..]))
  }

  // ----- statements -----

  function InBody(b: seq<Stmt>): Names
    decreases b, 1
  {
    if b == [] then NOTHING else Join(InStmt(b[0]), InBody(b[1..]))
  }

  /** A `try` with `except*` is not walked. */
  function InStmt(s: Stmt): Names
    decreases s, 1
  {
    match s
    case Pass | Break | Continue => NOTHING
    case ExprStmt(e) => Reads(e)
    case Return(o) => ReadsOpt(o)
    case AssignStmt(ts, v) => Join(Reads(v), TargetsAll(ts))
    case AugStmt(t, _, v) => Join(Join(Targets(t), AugReads(t)), Reads(v))
    case AnnStmt(t, a, v, _) => Join(Join(Targets(t), Reads(a)), ReadsOpt(v))
    case Del(es) => TargetsAll(es)
    case Assert(e, m) => Join(Reads(e), ReadsOpt(m))
    case Raise(e, c) => Join(ReadsOpt(e), ReadsOpt(c))
    case Import(names) => InImport(false, names)
    case ImportFrom(_, _, names) => InImport(true, names)
    case Declare(g, ids) => Declared(if g then FGlobal else FNonlocal, ids)
    case If(c, b, o) => Join(Join(Reads(c), InBody(b)), InBody(o))
    case While(c, b, o) => Join(Join(Reads(c), InBody(b)), InBody(o))
    case For(_, t, i, b, o) => Join(Join(Join(Targets(t), Reads(i)), InBody(b)), InBody(o))
    case Try(star, b, hs, o, f) =>
      if star then NOTHING else Join(Join(Join(InBody(b), InHandlers(hs)), InBody(o)), InBody(f))
    case FunctionDef(_, ds, n, ps, r, b) =>
      var outer := Join(Join(Join(Join(Bind(n), ReadsAll(ds)), ReadsAll(ps.defaults)), ReadsOpts(ps.kwdefaults)),
        ReadsOpt(r));
      Join(outer, Closed(FunctionScope, Join(ParamNames(ps), InBody(b))))
    case ClassDef(ds, n, bs, kws, b) =>
      var outer := Join(Join(Join(Bind(n), ReadsAll(ds)), ReadsAll(bs)), ReadsKeywords(kws));
      Join(outer, Closed(ClassScope, InBody(b)))
  }

  /** The names that an import binds: the name after `as`, or the name imported, or the first part of a
      path; a star binds none. */
  function InImport(from: bool, names: seq<Alias>): Names
    decreases names
  {
    if names == [] then NOTHING
    else
      var first := if from && names[0].path == ["*"] then NOTHING else Bind(ImportedAs(names[0]));
      Join(first, InImport(from, names[1..]))
  }

  function ImportedAs(a: Alias): string {
    if a.asname.Some? then a.asname.value else if a.path == [] then "" else a.path[0]
  }

  /** Names declared global or nonlocal. */
  function Declared(flag: Flag, ids: seq<string>): Names
    decreases ids
  {
    if ids == [] then NOTHING else Join(Names({}, {Note(flag, ids[0])}, {}, []), Declared(flag, ids[1..]))
  }

  function ReadsOpts(os: seq<Option<Expr>>): Names
    decreases os
  {
    if os == [] then NOTHING else Join(ReadsOpt(os[0]), ReadsOpts(os[1..]))
  }

  function InHandlers(hs: seq<Handler>): Names
    decreases hs
  {
    if hs == [] then NOTHING else Join(InHandler(hs[0]), InHandlers(hs[1..]))
  }

  function InHandler(h: Handler): Names
    decreases h
  {
    Join(Join(ReadsOpt(h.typ), (if h.name.Some? then Bind(h.name.value) else NOTHING)), InBody(h.body))
  }

  /** What the scope of a function sees of its parameters: their names, and their annotations. */
  function ParamNames(a: Arguments): Names
    decreases a
  {
    Join(Join(Join(Join(ParamsIn(a.posonly), ParamsIn(a.args)), ParamOptIn(a.vararg)), ParamsIn(a.kwonly)),
      ParamOptIn(a.kwarg))
  }

  function ParamsIn(ps: seq<Param>): Names
    decreases ps
  {
    if ps == [] then NOTHING else Join(ParamIn(ps[0]), ParamsIn(ps[1..]))
  }

  function ParamIn(p: Param): Names
    decreases p
  {
    Join(Bind(p.name), ReadsOpt(p.ann))
  }

  function ParamOptIn(o: Option<Param>): Names
    decreases o
  {
    match o case None => NOTHING case Some(p) => ParamIn(p)
  }

  // ----- only targets bind -----

  /** Reading an expression binds nothing where it stands, except by `:=`. */
  predicate IsOperator(e: Expr) {
    || e.BoolOp? || e.NamedExpr? || e.BinOp? || e.UnaryOp? || e.IfExp? || e.Await? || e.Compare?
    || e.Yield? || e.YieldFrom?
  }

  lemma {:induction false} ReadsBindNothing(e: Expr)
    ensures Reads(e).bound == {}
    decreases e, 2
  {
    hide Reads;
    if IsOperator(e) {
      OperatorBindsNothing(e);
    } else {
      PrimaryBindsNothing(e);
    }
  }

  lemma {:induction false} OperatorBindsNothing(e: Expr)
    requires IsOperator(e)
    ensures Reads(e).bound == {}
    decreases e, 1
  {
    hide ReadsAll, ReadsOpt, ReadsKeys, ReadsValues, ReadsComparisons, ReadsKeywords, Outside;
    match e {
    case BoolOp(_, vs) => AllBindNothing(vs);
    case NamedExpr(_, v) => ReadsBindNothing(v);
    case BinOp(_, l, r) => ReadsBindNothing(l); ReadsBindNothing(r);
    case UnaryOp(_, x) => ReadsBindNothing(x);
    case IfExp(t, b, o) => ReadsBindNothing(t); ReadsBindNothing(b); ReadsBindNothing(o);
    case Await(x) => ReadsBindNothing(x);
    case Compare(l, cs) => ReadsBindNothing(l); ComparisonsBindNothing(cs);
    case Yield(v) => OptBindsNothing(v);
    case YieldFrom(x) => ReadsBindNothing(x);
    }
  }

  lemma {:induction false} PrimaryBindsNothing(e: Expr)
    requires !IsOperator(e)
    ensures Reads(e).bound == {}
    decreases e, 1
  {
    hide ReadsAll, ReadsOpt, ReadsKeys, ReadsValues, ReadsComparisons, ReadsKeywords, Outside;
    match e {
    case Name(_) =>
    case Constant(_) =>
    case Lambda(_, _) =>
    case Dict(items) => KeysBindNothing(items); ValuesBindNothing(items);
    case Set(es) => AllBindNothing(es);
    case ListComp(_, _) => CompBindsNothing(e);
    case SetComp(_, _) => CompBindsNothing(e);
    case DictComp(_, _, _) => CompBindsNothing(e);
    case GeneratorExp(_, _) => CompBindsNothing(e);
    case Call(f, args, kws) => ReadsBindNothing(f); AllBindNothing(args); KeywordsBindNothing(kws);
    case Attribute(v, _) => ReadsBindNothing(v);
    case Subscript(v, s) => ReadsBindNothing(v); ReadsBindNothing(s);
    case Starred(x) => ReadsBindNothing(x);
    case ListExpr(es) => AllBindNothing(es);
    case Tuple(es) => AllBindNothing(es);
    case Slice(lo, up, st) => OptBindsNothing(lo); OptBindsNothing(up); OptBindsNothing(st);
    }
  }

  lemma {:induction false} CompBindsNothing(e: Expr)
    requires e.ListComp? || e.SetComp? || e.DictComp? || e.GeneratorExp?
    ensures Reads(e).bound == {}
    decreases e, 0
  {
    hide Outside;
    ReadsBindNothing(e.elt);
    if e.DictComp? {
      ReadsBindNothing(e.key);
      OutsideBindsNothing(e.gens, Join(Reads(e.key), Reads(e.elt)));
    } else {
      OutsideBindsNothing(e.gens, Reads(e.elt));
    }
  }

  lemma {:induction false} OutsideBindsNothing(gs: seq<Comprehension>, elt: Names)
    requires elt.bound == {}
    ensures Outside(gs, elt).bound == {}
    decreases gs, 5
  {
    if gs != [] {
      IterBindsNothing(gs[0]);
    }
  }

  lemma {:induction false} IterBindsNothing(g: Comprehension)
    ensures FirstIter(g).bound == {}
    decreases g
  {
    ReadsBindNothing(g.iter);
  }

  lemma {:induction false} OptBindsNothing(o: Option<Expr>)
    ensures ReadsOpt(o).bound == {}
    decreases o
  {
    if o.Some? {
      ReadsBindNothing(o.value);
    }
  }

  lemma {:induction false} AllBindNothing(es: seq<Expr>)
    ensures ReadsAll(es).bound == {}
    decreases es
  {
    if es != [] {
      ReadsBindNothing(es[0]);
      AllBindNothing(es[1..]);
    }
  }

  lemma {:induction false} ComparisonsBindNothing(cs: seq<Comparison>)
    ensures ReadsComparisons(cs).bound == {}
    decreases cs
  {
    if cs != [] {
      RightBindsNothing(cs[0]);
      ComparisonsBindNothing(cs[1..]);
    }
  }

  lemma {:induction false} RightBindsNothing(c: Comparison)
    ensures ReadsRight(c).bound == {}
    decreases c
  {
    ReadsBindNothing(c.right);
  }

  lemma {:induction false} KeysBindNothing(items: seq<DictItem>)
    ensures ReadsKeys(items).bound == {}
    decreases items
  {
    if items != [] {
      KeyBindsNothing(items[0]);
      KeysBindNothing(items[1..]);
    }
  }

  lemma {:induction false} KeyBindsNothing(it: DictItem)
    ensures ReadsKey(it).bound == {}
    decreases it
  {
    OptBindsNothing(it.key);
  }

  lemma {:induction false} ValuesBindNothing(items: seq<DictItem>)
    ensures ReadsValues(items).bound == {}
    decreases items
  {
    if items != [] {
      ValueBindsNothing(items[0]);
      ValuesBindNothing(items[1..]);
    }
  }

  lemma {:induction false} ValueBindsNothing(it: DictItem)
    ensures ReadsValue(it).bound == {}
    decreases it
  {
    ReadsBindNothing(it.value);
  }

  lemma {:induction false} KeywordsBindNothing(kws: seq<Keyword>)
    ensures ReadsKeywords(kws).bound == {}
    decreases kws
  {
    if kws != [] {
      KeywordBindsNothing(kws[0]);
      KeywordsBindNothing(kws[1..]);
    }
  }

  lemma {:induction false} KeywordBindsNothing(kw: Keyword)
    ensures ReadsKeyword(kw).bound == {}
    decreases kw
  {
    ReadsBindNothing(kw.value);
  }

  /** The names that the targets of a comprehension bind. */
  function TargetNames(gs: seq<Comprehension>): set<string> {
    if gs == [] then {} else Targets(gs[0].target).bound + TargetNames(gs[1..])
  }

  lemma {:induction false} ClausesBindTargets(gs: seq<Comprehension>)
    ensures Clauses(gs).bound == TargetNames(gs)
    decreases gs
  {
    if gs != [] {
      ClauseBindsTarget(gs[0]);
      ClausesBindTargets(gs[1..]);
    }
  }

  lemma ClauseBindsTarget(g: Comprehension)
    ensures Clause(g).bound == Targets(g.target).bound
    ensures FirstClause(g).bound == Targets(g.target).bound
  {
    hide Targets, Reads, ReadsAll;
    ReadsBindNothing(g.iter);
    AllBindNothing(g.ifs);
  }

  predicate IsComp(e: Expr) {
    e.ListComp? || e.SetComp? || e.DictComp? || e.GeneratorExp?
  }

  /** What the element of a comprehension reads: for a dictionary its key and its value. */
  function Element(e: Expr): Names
    requires IsComp(e)
  {
    if e.DictComp? then Join(Reads(e.key), Reads(e.elt)) else Reads(e.elt)
  }

  /** The scope of a comprehension of any kind binds its targets and nothing else: a walrus anywhere
      in it, at any depth of comprehensions, is handed on to the scope outside. */
  lemma ComprehensionBindsTargets(e: Expr)
    requires IsComp(e) && e.gens != []
    ensures var ns := Reads(e);
            && ns.nested != []
            && var own := ns.nested[|ns.nested| - 1];
            && own.kind == CompScope && own.bound == TargetNames(e.gens)
            && ns.walrus == Reads(e.gens[0].iter).walrus + Inside(e.gens).walrus + Element(e).walrus
  {
    hide Inside, Reads, Outside, Element;
    ElementBindsNothing(e);
    InsideBinds(e.gens);
    CompShape(e);
    var ins := Join(Inside(e.gens), Element(e));
    assert Closed(CompScope, ins).nested == [Nest(CompScope, ins.bound, ins.noted, ins.nested)];
  }

  lemma ElementBindsNothing(e: Expr)
    requires IsComp(e)
    ensures Element(e).bound == {}
  {
    hide Reads;
    ReadsBindNothing(e.elt);
    if e.DictComp? {
      ReadsBindNothing(e.key);
    }
  }

  lemma CompShape(e: Expr)
    requires IsComp(e) && e.gens != []
    ensures Reads(e) == Join(Reads(e.gens[0].iter), Closed(CompScope, Join(Inside(e.gens), Element(e))))
  {
    hide Inside, Closed;
    assert Reads(e) == Outside(e.gens, Element(e));
    assert FirstIter(e.gens[0]) == Reads(e.gens[0].iter);
  }

  lemma InsideBinds(gs: seq<Comprehension>)
    requires gs != []
    ensures Inside(gs).bound == TargetNames(gs)
  {
    ClauseBindsTarget(gs[0]);
    ClausesBindTargets(gs[1..]);
  }
}
