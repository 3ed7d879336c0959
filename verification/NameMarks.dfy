/** Every name that a piece of syntax binds, reads or declares ends up in the scopes that Bindings gives it,
    in that role and no other, and no scope holds a name that is not written there. */
module NameMarks {
  import opened Tokens
  import opened Ast
  import opened Scopes
  import opened Bindings
  import opened SymbolTable

  // ----- what is written, wherever it stands -----

  /** One name in one role; empty names do not count. */
  function Mark(f: Flag, n: string): set<Note> {
    if n == "" then {} else {Note(f, n)}
  }

  /** The names of an expression with their roles: stored by a walrus, a parameter or a target of a
      comprehension, read anywhere else. */
  function Marks(e: Expr): set<Note>
    decreases e, 1
  {
    match e
    case Name(id) => Mark(FUsed, id)
    case Constant(_) => {}
    case BoolOp(_, vs) => MarksAll(vs)
    case NamedExpr(t, v) => (if t.Name? then Mark(FBound, t.id) else {}) + Marks(v)
    case BinOp(_, l, r) => Marks(l) + Marks(r)
    case UnaryOp(_, x) => Marks(x)
    case Lambda(ps, b) => ParamMarks(ps) + Marks(b)
    case IfExp(t, b, o) => Marks(b) + Marks(t) + Marks(o)
    case Dict(items) => ItemMarks(items)
    case Set(es) => MarksAll(es)
    case ListComp(x, gs) => Marks(x) + GenMarks(gs)
    case SetComp(x, gs) => Marks(x) + GenMarks(gs)
    case DictComp(k, x, gs) => Marks(k) + Marks(x) + GenMarks(gs)
    case GeneratorExp(x, gs) => Marks(x) + GenMarks(gs)
    case Await(x) => Marks(x)
    case Yield(v) => MarksOpt(v)
    case YieldFrom(x) => Marks(x)
    case Compare(l, cs) => Marks(l) + RightMarks(cs)
    case Call(f, args, kws) => Marks(f) + MarksAll(args) + KeywordMarks(kws)
    case Attribute(v, _) => Marks(v)
    case Subscript(v, s) => Marks(v) + Marks(s)
    case Starred(x) => Marks(x)
    case ListExpr(es) => MarksAll(es)
    case Tuple(es) => MarksAll(es)
    case Slice(lo, up, st) => MarksOpt(lo) + MarksOpt(up) + MarksOpt(st)
  }

  function MarksOpt(o: Option<Expr>): set<Note>
    decreases o
  {
    match o case None => {} case Some(x) => Marks(x)
  }

  function MarksOpts(os: seq<Option<Expr>>): set<Note>
    decreases os
  {
    if os == [] then {} else MarksOpt(os[0]) + MarksOpts(os[1..])
  }

  function MarksAll(es: seq<Expr>): set<Note>
    decreases es
  {
    if es == [] then {} else Marks(es[0]) + MarksAll(es[1..])
  }

  function ItemMarks(items: seq<DictItem>): set<Note>
    decreases items
  {
    if items == [] then {} else ItemMark(items[0]) + ItemMarks(items[1..])
  }

  function ItemMark(it: DictItem): set<Note>
    decreases it
  {
    MarksOpt(it.key) + Marks(it.value)
  }

  function RightMarks(cs: seq<Comparison>): set<Note>
    decreases cs
  {
    if cs == [] then {} else RightMark(cs[0]) + RightMarks(cs[1..])
  }

  function RightMark(c: Comparison): set<Note>
    decreases c
  {
    Marks(c.right)
  }

  function KeywordMarks(kws: seq<Keyword>): set<Note>
    decreases kws
  {
    if kws == [] then {} else KeywordMark(kws[0]) + KeywordMarks(kws[1..])
  }

  function KeywordMark(kw: Keyword): set<Note>
    decreases kw
  {
    Marks(kw.value)
  }

  function GenMarks(gs: seq<Comprehension>): set<Note>
    decreases gs
  {
    if gs == [] then {} else GenMark(gs[0]) + GenMarks(gs[1..])
  }

  function GenMark(g: Comprehension): set<Note>
    decreases g
  {
    TargetMarks(g.target) + Marks(g.iter) + MarksAll(g.ifs)
  }

  /** A target stores names, through lists, tuples and stars, and reads everything else. */
  function TargetMarks(e: Expr): set<Note>
    decreases e, 2
  {
    match e
    case Name(id) => Mark(FBound, id)
    case Tuple(es) => TargetMarksAll(es)
    case ListExpr(es) => TargetMarksAll(es)
    case Starred(x) => TargetMarks(x)
    case _ => Marks(e)
  }

  function TargetMarksAll(es: seq<Expr>): set<Note>
    decreases es
  {
    if es == [] then {} else TargetMarks(es[0]) + TargetMarksAll(es[1..])
  }

  /** The stored names of a target, as names that are read. */
  function Reread(e: Expr): set<Note>
    decreases e, 2
  {
    match e
    case Name(id) => Mark(FUsed, id)
    case Tuple(es) => RereadAll(es)
    case ListExpr(es) => RereadAll(es)
    case Starred(x) => Reread(x)
    case _ => {}
  }

  function RereadAll(es: seq<Expr>): set<Note>
    decreases es
  {
    if es == [] then {} else Reread(es[0]) + RereadAll(es[1..])
  }

  /** Parameters store their names, and their annotations are read. */
  function ParamMarks(a: Arguments): set<Note>
    decreases a
  {
    ParamListMarks(a.posonly) + ParamListMarks(a.args) + ParamOptMarks(a.vararg) + ParamListMarks(a.kwonly)
    + ParamOptMarks(a.kwarg)
  }

  function ParamListMarks(ps: seq<Param>): set<Note>
    decreases ps
  {
    if ps == [] then {} else ParamMark(ps[0]) + ParamListMarks(ps[1..])
  }

  function ParamMark(p: Param): set<Note>
    decreases p
  {
    Mark(FBound, p.name) + MarksOpt(p.ann)
  }

  function ParamOptMarks(o: Option<Param>): set<Note>
    decreases o
  {
    match o case None => {} case Some(p) => ParamMark(p)
  }

  function BodyMarks(b: seq<Stmt>): set<Note>
    decreases b, 1
  {
    if b == [] then {} else StmtMarks(b[0]) + BodyMarks(b[1..])
  }

  /** The names of a statement with their roles.  As in the builder, a `try` with `except*` is passed over. */
  function StmtMarks(s: Stmt): set<Note>
    decreases s, 1
  {
    match s
    case Pass | Break | Continue => {}
    case ExprStmt(e) => Marks(e)
    case Return(o) => MarksOpt(o)
    case AssignStmt(ts, v) => TargetMarksAll(ts) + Marks(v)
    case AugStmt(t, _, v) => TargetMarks(t) + Reread(t) + Marks(v)
    case AnnStmt(t, a, v, _) => TargetMarks(t) + Marks(a) + MarksOpt(v)
    case Del(es) => TargetMarksAll(es)
    case Assert(e, m) => Marks(e) + MarksOpt(m)
    case Raise(e, c) => MarksOpt(e) + MarksOpt(c)
    case Import(names) => AliasMarks(false, names)
    case ImportFrom(_, _, names) => AliasMarks(true, names)
    case Declare(g, ids) => set n | n in ids :: Note(if g then FGlobal else FNonlocal, n)
    case If(c, b, o) => Marks(c) + BodyMarks(b) + BodyMarks(o)
    case While(c, b, o) => Marks(c) + BodyMarks(b) + BodyMarks(o)
    case For(_, t, i, b, o) => TargetMarks(t) + Marks(i) + BodyMarks(b) + BodyMarks(o)
    case Try(star, b, hs, o, f) =>
      if star then {} else BodyMarks(b) + HandlerMarks(hs) + BodyMarks(o) + BodyMarks(f)
    case FunctionDef(_, ds, n, ps, r, b) => HeaderMarks(ds, n, ps, r) + (ParamMarks(ps) + BodyMarks(b))
    case ClassDef(ds, n, bs, kws, b) => Mark(FBound, n) + MarksAll(ds) + MarksAll(bs) + KeywordMarks(kws) + BodyMarks(b)
  }

  /** What is written of a function outside its scope: name, decorators, defaults and return type. */
  function HeaderMarks(ds: seq<Expr>, n: string, ps: Arguments, r: Option<Expr>): set<Note> {
    Mark(FBound, n) + MarksAll(ds) + MarksAll(ps.defaults) + MarksOpts(ps.kwdefaults) + MarksOpt(r)
  }

  /** The name after `as`, else the name itself, of a path its first part; a star stores none. */
  function AliasMarks(from: bool, names: seq<Alias>): set<Note> {
    if names == [] then {}
    else
      var a := names[0];
      (match a.asname
       case Some(n) => if from && a.path == ["*"] then {} else Mark(FBound, n)
       case None => if a.path == [] || (from && a.path == ["*"]) then {} else Mark(FBound, a.path[0]))
      + AliasMarks(from, names[1..])
  }

  function HandlerMarks(hs: seq<Handler>): set<Note>
    decreases hs
  {
    if hs == [] then {} else HandlerMark(hs[0]) + HandlerMarks(hs[1..])
  }

  function HandlerMark(h: Handler): set<Note>
    decreases h
  {
    MarksOpt(h.typ) + (if h.name.Some? then Mark(FBound, h.name.value) else {}) + BodyMarks(h.body)
  }

  // ----- what the scopes hold, at any depth -----

  function Stored(names: set<string>): set<Note> {
    set n | n in names :: Note(FBound, n)
  }

  function Flat(ns: Names): set<Note> {
    Stored(ns.bound + ns.walrus) + ns.noted + FlatAll(ns.nested)
  }

  function FlatAll(nests: seq<Nest>): set<Note>
    decreases nests
  {
    if nests == [] then {} else FlatNest(nests[0]) + FlatAll(nests[1..])
  }

  function FlatNest(n: Nest): set<Note>
    decreases n
  {
    Stored(n.bound) + n.noted + FlatAll(n.nested)
  }

  lemma {:induction false} FlatPlus(a: seq<Nest>, b: seq<Nest>)
    ensures FlatAll(a + b) == FlatAll(a) + FlatAll(b)
    decreases a
  {
    if a == [] {
      assert a + b == b;
    } else {
      assert (a + b)[0] == a[0] && (a + b)[1..] == a[1..] + b;
      FlatPlus(a[1..], b);
    }
  }

  lemma FlatJoin(a: Names, b: Names)
    ensures Flat(Join(a, b)) == Flat(a) + Flat(b)
  {
    hide FlatAll;
    FlatPlus(a.nested, b.nested);
  }

  lemma FlatClosed(kind: Kind, ns: Names)
    ensures Flat(Closed(kind, ns)) == Flat(ns)
  {
    var own := if kind == CompScope then Nest(kind, ns.bound, ns.noted, ns.nested)
      else Nest(kind, ns.bound + ns.walrus, ns.noted, ns.nested);
    assert FlatAll([own]) == FlatNest(own) + FlatAll([]);
  }

  lemma FlatOnes(n: string)
    ensures Flat(Bind(n)) == Mark(FBound, n) && Flat(Use(n)) == Mark(FUsed, n) && Flat(NOTHING) == {}
    ensures Flat(Names({}, {}, Just(n), [])) == Mark(FBound, n) && Flat(Names({}, {}, {}, [])) == {}
    ensures forall f :: Flat(Names({}, {Note(f, n)}, {}, [])) == {Note(f, n)}
  {
  }

  // ----- expressions -----

  /** No name of an expression is lost, invented or given another role. */
  lemma {:induction false} ReadsMarks(e: Expr)
    ensures Flat(Reads(e)) == Marks(e)
    decreases e, 3
  {
    hide Reads, Marks, Flat;
    if IsOperator(e) {
      OperatorMarks(e);
    } else if IsComp(e) {
      CompMarks(e);
    } else {
      PrimaryMarks(e);
    }
  }

  lemma {:induction false} OperatorMarks(e: Expr)
    requires IsOperator(e)
    ensures Flat(Reads(e)) == Marks(e)
    decreases e, 1
  {
    hide Flat, ReadsAll, ReadsOpt, ReadsKeys, ReadsValues, ReadsComparisons, ReadsKeywords, Outside, MarksAll, MarksOpt,
      ItemMarks, RightMarks, KeywordMarks, GenMarks, ParamMarks, ParamNames, Join, Closed, Use, Mark;
    match e {
    case BoolOp(_, vs) => AllMarks(vs);
    case NamedExpr(t, v) =>
      ReadsMarks(v);
      FlatOnes(if t.Name? then t.id else "");
      FlatJoin(Reads(v), Names({}, {}, if t.Name? then Just(t.id) else {}, []));
    case BinOp(_, l, r) => ReadsMarks(l); ReadsMarks(r); FlatJoin(Reads(l), Reads(r));
    case UnaryOp(_, x) => ReadsMarks(x);
    case IfExp(t, b, o) =>
      ReadsMarks(t); ReadsMarks(b); ReadsMarks(o);
      FlatJoin(Reads(t), Reads(b));
      FlatJoin(Join(Reads(t), Reads(b)), Reads(o));
    case Await(x) => ReadsMarks(x);
    case Compare(l, cs) => ReadsMarks(l); ComparisonMarks(cs); FlatJoin(Reads(l), ReadsComparisons(cs));
    case Yield(v) => OptMarks(v);
    case YieldFrom(x) => ReadsMarks(x);
    }
  }

  lemma {:induction false} PrimaryMarks(e: Expr)
    requires !IsOperator(e) && !IsComp(e)
    ensures Flat(Reads(e)) == Marks(e)
    decreases e, 1
  {
    hide Flat, ReadsAll, ReadsOpt, ReadsKeys, ReadsValues, ReadsComparisons, ReadsKeywords, Outside, MarksAll, MarksOpt,
      ItemMarks, RightMarks, KeywordMarks, GenMarks, ParamMarks, ParamNames, Join, Closed, Use, Mark;
    match e {
    case Name(id) => FlatOnes(id);
    case Constant(_) => FlatOnes("");
    case Lambda(ps, b) =>
      ParamNamesMarks(ps);
      ReadsMarks(b);
      FlatJoin(ParamNames(ps), Reads(b));
      FlatClosed(LambdaScope, Join(ParamNames(ps), Reads(b)));
    case Dict(items) => DictMarks(items);
    case Set(es) => AllMarks(es);
    case Call(f, args, kws) =>
      ReadsMarks(f); AllMarks(args); KeywordsMarks(kws);
      FlatJoin(Reads(f), ReadsAll(args));
      FlatJoin(Join(Reads(f), ReadsAll(args)), ReadsKeywords(kws));
    case Attribute(v, _) => ReadsMarks(v);
    case Subscript(v, s) => ReadsMarks(v); ReadsMarks(s); FlatJoin(Reads(v), Reads(s));
    case Starred(x) => ReadsMarks(x);
    case ListExpr(es) => AllMarks(es);
    case Tuple(es) => AllMarks(es);
    case Slice(lo, up, st) =>
      OptMarks(lo); OptMarks(up); OptMarks(st);
      FlatJoin(ReadsOpt(lo), ReadsOpt(up));
      FlatJoin(Join(ReadsOpt(lo), ReadsOpt(up)), ReadsOpt(st));
    }
  }

  lemma {:induction false} CompMarks(e: Expr)
    requires IsComp(e)
    ensures Flat(Reads(e)) == Marks(e)
    decreases e, 2
  {
    hide Flat, Outside, GenMarks, Join;
    ReadsMarks(e.elt);
    if e.DictComp? {
      ReadsMarks(e.key);
      FlatJoin(Reads(e.key), Reads(e.elt));
      OutsideMarks(e.gens, Join(Reads(e.key), Reads(e.elt)));
    } else {
      OutsideMarks(e.gens, Reads(e.elt));
    }
  }

  lemma {:induction false} OutsideMarks(gs: seq<Comprehension>, elt: Names)
    ensures Flat(Outside(gs, elt)) == Flat(elt) + GenMarks(gs)
    decreases gs, 5
  {
    hide Flat, Join, Closed, FirstIter, Inside, Clauses, GenMark;
    if gs != [] {
      ClauseMarks(gs[0]);
      ClausesMarks(gs[1..]);
      InsideIs(gs);
      FlatJoin(FirstClause(gs[0]), Clauses(gs[1..]));
      FlatJoin(Inside(gs), elt);
      FlatClosed(CompScope, Join(Inside(gs), elt));
      FlatJoin(FirstIter(gs[0]), Closed(CompScope, Join(Inside(gs), elt)));
    }
  }

  lemma InsideIs(gs: seq<Comprehension>)
    requires gs != []
    ensures Inside(gs) == Join(FirstClause(gs[0]), Clauses(gs[1..]))
  {
    hide FirstClause, Clauses, Join;
  }

  lemma {:induction false} ClausesMarks(gs: seq<Comprehension>)
    ensures Flat(Clauses(gs)) == GenMarks(gs)
    decreases gs, 3
  {
    hide Flat, Join, Clause, GenMark;
    FlatOnes("");
    if gs != [] {
      ClauseMarks(gs[0]);
      ClausesMarks(gs[1..]);
      FlatJoin(Clause(gs[0]), Clauses(gs[1..]));
    }
  }

  lemma {:induction false} ClauseMarks(g: Comprehension)
    ensures Flat(Clause(g)) == GenMark(g) == Flat(FirstIter(g)) + Flat(FirstClause(g))
    ensures Flat(FirstIter(g)) == Marks(g.iter) && Flat(FirstClause(g)) == TargetMarks(g.target) + MarksAll(g.ifs)
    decreases g
  {
    hide Flat, Join, Reads, ReadsAll, Targets, Marks, MarksAll, TargetMarks;
    ReadsMarks(g.iter);
    TargetsMarks(g.target);
    AllMarks(g.ifs);
    FlatJoin(Targets(g.target), ReadsAll(g.ifs));
    FlatJoin(Reads(g.iter), FirstClause(g));
  }

  lemma {:induction false} OptMarks(o: Option<Expr>)
    ensures Flat(ReadsOpt(o)) == MarksOpt(o)
    decreases o
  {
    hide Flat, Reads, Marks;
    FlatOnes("");
    if o.Some? {
      ReadsMarks(o.value);
    }
  }

  lemma {:induction false} OptsMarks(os: seq<Option<Expr>>)
    ensures Flat(ReadsOpts(os)) == MarksOpts(os)
    decreases os
  {
    hide Flat, ReadsOpt, MarksOpt, Join;
    FlatOnes("");
    if os != [] {
      OptMarks(os[0]);
      OptsMarks(os[1..]);
      FlatJoin(ReadsOpt(os[0]), ReadsOpts(os[1..]));
    }
  }

  lemma {:induction false} AllMarks(es: seq<Expr>)
    ensures Flat(ReadsAll(es)) == MarksAll(es)
    decreases es
  {
    hide Flat, Reads, Marks, Join;
    FlatOnes("");
    if es != [] {
      ReadsMarks(es[0]);
      AllMarks(es[1..]);
      FlatJoin(Reads(es[0]), ReadsAll(es[1..]));
    }
  }

  lemma {:induction false} ComparisonMarks(cs: seq<Comparison>)
    ensures Flat(ReadsComparisons(cs)) == RightMarks(cs)
    decreases cs
  {
    hide Flat, ReadsRight, RightMark, Join;
    FlatOnes("");
    if cs != [] {
      OneRight(cs[0]);
      ComparisonMarks(cs[1..]);
      FlatJoin(ReadsRight(cs[0]), ReadsComparisons(cs[1..]));
    }
  }

  lemma {:induction false} OneRight(c: Comparison)
    ensures Flat(ReadsRight(c)) == RightMark(c)
    decreases c
  {
    hide Flat, Reads, Marks;
    ReadsMarks(c.right);
  }

  lemma {:induction false} KeywordsMarks(kws: seq<Keyword>)
    ensures Flat(ReadsKeywords(kws)) == KeywordMarks(kws)
    decreases kws
  {
    hide Flat, ReadsKeyword, KeywordMark, Join;
    FlatOnes("");
    if kws != [] {
      OneKeyword(kws[0]);
      KeywordsMarks(kws[1..]);
      FlatJoin(ReadsKeyword(kws[0]), ReadsKeywords(kws[1..]));
    }
  }

  lemma {:induction false} OneKeyword(kw: Keyword)
    ensures Flat(ReadsKeyword(kw)) == KeywordMark(kw)
    decreases kw
  {
    hide Flat, Reads, Marks;
    ReadsMarks(kw.value);
  }

  /** Keys are walked before values; the names are those of the items. */
  lemma {:induction false} DictMarks(items: seq<DictItem>)
    ensures Flat(Join(ReadsKeys(items), ReadsValues(items))) == ItemMarks(items)
    decreases items
  {
    hide Flat, Join, ReadsKey, ReadsValue, ItemMark;
    FlatJoin(ReadsKeys(items), ReadsValues(items));
    FlatOnes("");
    if items != [] {
      OneItem(items[0]);
      DictMarks(items[1..]);
      FlatJoin(ReadsKeys(items[1..]), ReadsValues(items[1..]));
      FlatJoin(ReadsKey(items[0]), ReadsKeys(items[1..]));
      FlatJoin(ReadsValue(items[0]), ReadsValues(items[1..]));
    }
  }

  lemma {:induction false} OneItem(it: DictItem)
    ensures Flat(ReadsKey(it)) + Flat(ReadsValue(it)) == ItemMark(it)
    decreases it
  {
    hide Flat, Reads, ReadsOpt, Marks, MarksOpt;
    OptMarks(it.key);
    ReadsMarks(it.value);
  }

  lemma {:induction false} TargetsMarks(e: Expr)
    ensures Flat(Targets(e)) == TargetMarks(e)
    decreases e, 4
  {
    hide Flat, Reads, Marks, TargetsAll, TargetMarksAll, Bind, Mark;
    match e {
    case Name(id) => FlatOnes(id);
    case Tuple(es) => TargetsAllMarks(es);
    case ListExpr(es) => TargetsAllMarks(es);
    case Starred(x) => TargetsMarks(x);
    case _ => ReadsMarks(e);
    }
  }

  lemma {:induction false} TargetsAllMarks(es: seq<Expr>)
    ensures Flat(TargetsAll(es)) == TargetMarksAll(es)
    decreases es
  {
    hide Flat, Targets, TargetMarks, Join;
    FlatOnes("");
    if es != [] {
      TargetsMarks(es[0]);
      TargetsAllMarks(es[1..]);
      FlatJoin(Targets(es[0]), TargetsAll(es[1..]));
    }
  }

  lemma {:induction false} AugMarks(e: Expr)
    ensures Flat(AugReads(e)) == Reread(e)
    decreases e, 4
  {
    hide Flat, AugReadsAll, RereadAll, Use, Mark;
    FlatOnes(if e.Name? then e.id else "");
    match e {
    case Tuple(es) => AugAllMarks(es);
    case ListExpr(es) => AugAllMarks(es);
    case Starred(x) => AugMarks(x);
    case _ =>
    }
  }

  lemma {:induction false} AugAllMarks(es: seq<Expr>)
    ensures Flat(AugReadsAll(es)) == RereadAll(es)
    decreases es
  {
    hide Flat, AugReads, Reread, Join;
    FlatOnes("");
    if es != [] {
      AugMarks(es[0]);
      AugAllMarks(es[1..]);
      FlatJoin(AugReads(es[0]), AugReadsAll(es[1..]));
    }
  }

  // ----- parameters -----

  lemma {:induction false} ParamNamesMarks(a: Arguments)
    ensures Flat(ParamNames(a)) == ParamMarks(a)
    decreases a
  {
    hide Flat, Join, ParamsIn, ParamOptIn, ParamListMarks, ParamOptMarks;
    var (p, q, v, k, w) := (ParamsIn(a.posonly), ParamsIn(a.args), ParamOptIn(a.vararg), ParamsIn(a.kwonly),
      ParamOptIn(a.kwarg));
    ParamListIn(a.posonly);
    ParamListIn(a.args);
    ParamOptMark(a.vararg);
    ParamListIn(a.kwonly);
    ParamOptMark(a.kwarg);
    FlatJoin(p, q);
    FlatJoin(Join(p, q), v);
    FlatJoin(Join(Join(p, q), v), k);
    FlatJoin(Join(Join(Join(p, q), v), k), w);
  }

  lemma {:induction false} ParamListIn(ps: seq<Param>)
    ensures Flat(ParamsIn(ps)) == ParamListMarks(ps)
    decreases ps
  {
    hide Flat, Join, ParamIn, ParamMark;
    FlatOnes("");
    if ps != [] {
      OneParam(ps[0]);
      ParamListIn(ps[1..]);
      FlatJoin(ParamIn(ps[0]), ParamsIn(ps[1..]));
    }
  }

  lemma {:induction false} OneParam(p: Param)
    ensures Flat(ParamIn(p)) == ParamMark(p)
    decreases p
  {
    hide Flat, Join, ReadsOpt, MarksOpt, Bind, Mark;
    OptMarks(p.ann);
    FlatOnes(p.name);
    FlatJoin(Bind(p.name), ReadsOpt(p.ann));
  }

  lemma {:induction false} ParamOptMark(o: Option<Param>)
    ensures Flat(ParamOptIn(o)) == ParamOptMarks(o)
    decreases o
  {
    hide Flat, ParamIn, ParamMark;
    FlatOnes("");
    if o.Some? {
      OneParam(o.value);
    }
  }

  // ----- statements -----

  lemma {:induction false} BodyNames(b: seq<Stmt>)
    ensures Flat(InBody(b)) == BodyMarks(b)
    decreases b, 4
  {
    hide Flat, Join, InStmt, StmtMarks;
    FlatOnes("");
    if b != [] {
      StmtNames(b[0]);
      BodyNames(b[1..]);
      FlatJoin(InStmt(b[0]), InBody(b[1..]));
    }
  }

  predicate Plain(s: Stmt) {
    s.Pass? || s.Break? || s.Continue? || s.ExprStmt? || s.Return? || s.AssignStmt? || s.AugStmt? || s.AnnStmt?
    || s.Del? || s.Assert? || s.Raise? || s.Import? || s.ImportFrom? || s.Declare?
  }

  /** No name of a statement is lost, invented or given another role. */
  lemma {:induction false} StmtNames(s: Stmt)
    ensures Flat(InStmt(s)) == StmtMarks(s)
    decreases s, 3
  {
    hide Flat, InStmt, StmtMarks, Plain;
    if Plain(s) {
      PlainNames(s);
    } else if s.FunctionDef? {
      FunctionNames(s);
    } else if s.ClassDef? {
      ClassNames(s);
    } else {
      CompoundNames(s);
    }
  }

  lemma PlainNames(s: Stmt)
    requires Plain(s)
    ensures Flat(InStmt(s)) == StmtMarks(s)
  {
    hide Flat, Join, Reads, ReadsOpt, Marks, MarksOpt, Targets, TargetsAll, TargetMarks, TargetMarksAll, AugReads,
      Reread, InImport, AliasMarks, Declared;
    match s {
    case Pass | Break | Continue => FlatOnes("");
    case ExprStmt(e) => ReadsMarks(e);
    case Return(o) => OptMarks(o);
    case AssignStmt(ts, v) => TargetsAllMarks(ts); ReadsMarks(v); FlatJoin(Reads(v), TargetsAll(ts));
    case AugStmt(t, _, v) =>
      TargetsMarks(t); AugMarks(t); ReadsMarks(v);
      FlatJoin(Targets(t), AugReads(t));
      FlatJoin(Join(Targets(t), AugReads(t)), Reads(v));
    case AnnStmt(t, a, v, _) =>
      TargetsMarks(t); ReadsMarks(a); OptMarks(v);
      FlatJoin(Targets(t), Reads(a));
      FlatJoin(Join(Targets(t), Reads(a)), ReadsOpt(v));
    case Del(es) => TargetsAllMarks(es);
    case Assert(e, m) => ReadsMarks(e); OptMarks(m); FlatJoin(Reads(e), ReadsOpt(m));
    case Raise(e, c) => OptMarks(e); OptMarks(c); FlatJoin(ReadsOpt(e), ReadsOpt(c));
    case Import(names) => ImportNames(false, names);
    case ImportFrom(_, _, names) => ImportNames(true, names);
    case Declare(g, ids) => DeclaredNames(if g then FGlobal else FNonlocal, ids);
    }
  }

  lemma {:induction false} ImportNames(from: bool, names: seq<Alias>)
    ensures Flat(InImport(from, names)) == AliasMarks(from, names)
    decreases names
  {
    hide Flat, Join, Bind, Mark;
    FlatOnes("");
    if names != [] {
      var a := names[0];
      ImportNames(from, names[1..]);
      FlatOnes(ImportedAs(a));
      FlatJoin(if from && a.path == ["*"] then NOTHING else Bind(ImportedAs(a)), InImport(from, names[1..]));
      NoMark();
    }
  }

  lemma NoMark()
    ensures Mark(FBound, "") == {}
  {
  }

  lemma {:induction false} DeclaredNames(f: Flag, ids: seq<string>)
    ensures Flat(Declared(f, ids)) == set n | n in ids :: Note(f, n)
    decreases ids
  {
    hide Flat, Join;
    FlatOnes("");
    if ids != [] {
      DeclaredNames(f, ids[1..]);
      FlatOnes(ids[0]);
      FlatJoin(Names({}, {Note(f, ids[0])}, {}, []), Declared(f, ids[1..]));
      assert ids == [ids[0]] + ids[1..];
      assert forall n :: n in ids <==> n == ids[0] || n in ids[1..];
    }
  }

  lemma {:induction false} CompoundNames(s: Stmt)
    requires !Plain(s) && !s.FunctionDef? && !s.ClassDef?
    ensures Flat(InStmt(s)) == StmtMarks(s)
    decreases s, 2
  {
    hide Flat, Join, Reads, Marks, Targets, TargetMarks, InBody, BodyMarks, InHandlers, HandlerMarks;
    match s {
    case If(c, b, o) => ReadsMarks(c); BodyNames(b); BodyNames(o); BranchNames(Reads(c), b, o);
    case While(c, b, o) => ReadsMarks(c); BodyNames(b); BodyNames(o); BranchNames(Reads(c), b, o);
    case For(_, t, i, b, o) =>
      TargetsMarks(t); ReadsMarks(i); BodyNames(b); BodyNames(o);
      FlatJoin(Targets(t), Reads(i));
      BranchNames(Join(Targets(t), Reads(i)), b, o);
    case Try(star, b, hs, o, f) =>
      if star {
        FlatOnes("");
      } else {
        BodyNames(b); HandlersNames(hs); BodyNames(o); BodyNames(f);
        FlatJoin(InBody(b), InHandlers(hs));
        BranchNames(Join(InBody(b), InHandlers(hs)), o, f);
      }
    }
  }

  /** Two blocks after something else. */
  lemma BranchNames(head: Names, b: seq<Stmt>, o: seq<Stmt>)
    requires Flat(InBody(b)) == BodyMarks(b) && Flat(InBody(o)) == BodyMarks(o)
    ensures Flat(Join(Join(head, InBody(b)), InBody(o))) == Flat(head) + BodyMarks(b) + BodyMarks(o)
  {
    hide Flat, Join, InBody, BodyMarks;
    FlatJoin(head, InBody(b));
    FlatJoin(Join(head, InBody(b)), InBody(o));
  }

  lemma {:induction false} HandlersNames(hs: seq<Handler>)
    ensures Flat(InHandlers(hs)) == HandlerMarks(hs)
    decreases hs
  {
    hide Flat, Join, InHandler, HandlerMark;
    FlatOnes("");
    if hs != [] {
      OneHandler(hs[0]);
      HandlersNames(hs[1..]);
      FlatJoin(InHandler(hs[0]), InHandlers(hs[1..]));
    }
  }

  lemma {:induction false} OneHandler(h: Handler)
    ensures Flat(InHandler(h)) == HandlerMark(h)
    decreases h
  {
    hide Flat, Join, ReadsOpt, MarksOpt, InBody, BodyMarks, Bind, Mark;
    var name := if h.name.Some? then Bind(h.name.value) else NOTHING;
    OptMarks(h.typ);
    BodyNames(h.body);
    FlatOnes(if h.name.Some? then h.name.value else "");
    FlatJoin(ReadsOpt(h.typ), name);
    FlatJoin(Join(ReadsOpt(h.typ), name), InBody(h.body));
  }

  // ----- definitions -----

  /** What a function reads and binds where it stands. */
  function Header(ds: seq<Expr>, n: string, ps: Arguments, r: Option<Expr>): Names {
    Join(Join(Join(Join(Bind(n), ReadsAll(ds)), ReadsAll(ps.defaults)), ReadsOpts(ps.kwdefaults)), ReadsOpt(r))
  }

  lemma HeaderNames(ds: seq<Expr>, n: string, ps: Arguments, r: Option<Expr>)
    ensures Flat(Header(ds, n, ps, r)) == HeaderMarks(ds, n, ps, r)
  {
    hide Flat, Join, Bind, Mark, ReadsAll, ReadsOpts, ReadsOpt, MarksAll, MarksOpts, MarksOpt;
    var a := Join(Bind(n), ReadsAll(ds));
    var b := Join(a, ReadsAll(ps.defaults));
    var c := Join(b, ReadsOpts(ps.kwdefaults));
    FlatOnes(n);
    AllMarks(ds);
    AllMarks(ps.defaults);
    OptsMarks(ps.kwdefaults);
    OptMarks(r);
    FlatJoin(Bind(n), ReadsAll(ds));
    FlatJoin(a, ReadsAll(ps.defaults));
    FlatJoin(b, ReadsOpts(ps.kwdefaults));
    FlatJoin(c, ReadsOpt(r));
  }

  lemma FunctionIs(s: Stmt)
    requires s.FunctionDef?
    ensures InStmt(s) == Join(Header(s.decorators, s.name, s.params, s.rtype),
                              Closed(FunctionScope, Join(ParamNames(s.params), InBody(s.body))))
    ensures StmtMarks(s) == HeaderMarks(s.decorators, s.name, s.params, s.rtype)
                            + (ParamMarks(s.params) + BodyMarks(s.body))
  {
    hide Join, Closed, ParamNames, InBody, ParamMarks, BodyMarks, HeaderMarks;
  }

  lemma {:induction false} FunctionNames(s: Stmt)
    requires s.FunctionDef?
    ensures Flat(InStmt(s)) == StmtMarks(s)
    ensures Flat(Join(ParamNames(s.params), InBody(s.body))) == ParamMarks(s.params) + BodyMarks(s.body)
    decreases s, 2
  {
    hide Flat, Join, Closed, Header, HeaderMarks, ParamNames, ParamMarks, InBody, BodyMarks, InStmt, StmtMarks;
    var inner := Join(ParamNames(s.params), InBody(s.body));
    FunctionIs(s);
    HeaderNames(s.decorators, s.name, s.params, s.rtype);
    ParamNamesMarks(s.params);
    BodyNames(s.body);
    FlatJoin(ParamNames(s.params), InBody(s.body));
    FlatClosed(FunctionScope, inner);
    FlatJoin(Header(s.decorators, s.name, s.params, s.rtype), Closed(FunctionScope, inner));
  }

  lemma {:induction false} ClassNames(s: Stmt)
    requires s.ClassDef?
    ensures Flat(InStmt(s)) == StmtMarks(s)
    decreases s, 2
  {
    hide Flat, Join, Closed, InBody, BodyMarks, Bind, Mark, ReadsAll, ReadsKeywords, MarksAll, KeywordMarks;
    var a := Join(Bind(s.name), ReadsAll(s.decorators));
    var b := Join(a, ReadsAll(s.bases));
    var c := Join(b, ReadsKeywords(s.keywords));
    FlatOnes(s.name);
    AllMarks(s.decorators);
    AllMarks(s.bases);
    KeywordsMarks(s.keywords);
    BodyNames(s.body);
    FlatJoin(Bind(s.name), ReadsAll(s.decorators));
    FlatJoin(a, ReadsAll(s.bases));
    FlatJoin(b, ReadsKeywords(s.keywords));
    FlatClosed(ClassScope, InBody(s.body));
    FlatJoin(c, Closed(ClassScope, InBody(s.body)));
  }

  // ----- where they stand -----

  function Used(ms: set<Note>): set<Note> {
    set m | m in ms && m.flag != FBound
  }

  /** The scope that syntax opens last, and everything else that it does. */
  predicate Splits(ns: Names, kind: Kind, outer: set<Note>, inner: set<Note>) {
    ns.nested != [] &&
    var own := ns.nested[|ns.nested| - 1];
    && own.kind == kind && FlatNest(own) == inner
    && Flat(ns.(nested := ns.nested[..|ns.nested| - 1])) == outer
  }

  lemma SplitsJoin(ns: Names, kind: Kind, inner: Names)
    requires kind != CompScope
    ensures Splits(Join(ns, Closed(kind, inner)), kind, Flat(ns), Flat(inner))
  {
    hide FlatAll;
    var all := Join(ns, Closed(kind, inner));
    assert all.nested[..|all.nested| - 1] == ns.nested;
    assert all.(nested := ns.nested) == ns;
  }

  /** Of a function, decorators, defaults and return type are read where it is defined and its name is
      bound there; parameters, annotations and body belong to its own scope. */
  lemma FunctionPlaces(s: Stmt)
    requires s.FunctionDef?
    ensures Splits(InStmt(s), FunctionScope, HeaderMarks(s.decorators, s.name, s.params, s.rtype),
              ParamMarks(s.params) + BodyMarks(s.body))
  {
    hide Flat, Join, Closed, Header, HeaderMarks, ParamNames, ParamMarks, InBody, BodyMarks, InStmt, StmtMarks, Splits;
    FunctionIs(s);
    FunctionNames(s);
    HeaderNames(s.decorators, s.name, s.params, s.rtype);
    SplitsJoin(Header(s.decorators, s.name, s.params, s.rtype), FunctionScope,
      Join(ParamNames(s.params), InBody(s.body)));
  }

  /** Of a class, decorators, bases and keywords are read where it is defined; its body has a scope. */
  lemma ClassPlaces(s: Stmt)
    requires s.ClassDef?
    ensures Splits(InStmt(s), ClassScope,
              Mark(FBound, s.name) + MarksAll(s.decorators) + MarksAll(s.bases) + KeywordMarks(s.keywords),
              BodyMarks(s.body))
  {
    hide Flat, Join, Closed, InBody, BodyMarks, Bind, Mark, ReadsAll, ReadsKeywords, MarksAll, KeywordMarks, Splits;
    var a := Join(Bind(s.name), ReadsAll(s.decorators));
    var b := Join(a, ReadsAll(s.bases));
    FlatOnes(s.name);
    AllMarks(s.decorators);
    AllMarks(s.bases);
    KeywordsMarks(s.keywords);
    BodyNames(s.body);
    FlatJoin(Bind(s.name), ReadsAll(s.decorators));
    FlatJoin(a, ReadsAll(s.bases));
    FlatJoin(b, ReadsKeywords(s.keywords));
    SplitsJoin(Join(b, ReadsKeywords(s.keywords)), ClassScope, InBody(s.body));
  }

  /** A lambda does nothing where it stands; parameters and body belong to its own scope. */
  lemma LambdaPlaces(ps: Arguments, b: Expr)
    ensures Splits(Reads(Lambda(ps, b)), LambdaScope, {}, ParamMarks(ps) + Marks(b))
  {
    hide Flat, Join, ParamNames, ParamMarks, Reads, Marks;
    var inner := Join(ParamNames(ps), Reads(b));
    ParamNamesMarks(ps);
    ReadsMarks(b);
    FlatJoin(ParamNames(ps), Reads(b));
    LambdaIs(ps, b);
    OnlyScope(LambdaScope, inner);
  }

  lemma LambdaIs(ps: Arguments, b: Expr)
    ensures Reads(Lambda(ps, b)) == Closed(LambdaScope, Join(ParamNames(ps), Reads(b)))
  {
    hide Join, Closed, ParamNames;
  }

  lemma OnlyScope(kind: Kind, inner: Names)
    requires kind != CompScope
    ensures Splits(Closed(kind, inner), kind, {}, Flat(inner))
  {
    hide FlatAll;
    var all := Closed(kind, inner);
    assert all.nested[..0] == [];
    assert all.(nested := []) == Names({}, {}, {}, []);
    FlatOnes("");
  }

  /** Of a comprehension only the first iterable is read where it stands; the names read in its other
      clauses, conditions and element are read in its own scope or below. */
  lemma ComprehensionPlaces(e: Expr)
    requires IsComp(e) && e.gens != []
    ensures var ns := Reads(e);
            && ns.nested != []
            && var own := ns.nested[|ns.nested| - 1];
            && own.kind == CompScope
            && Used(FlatNest(own)) == Used(TargetMarks(e.gens[0].target) + MarksAll(e.gens[0].ifs)
                                           + GenMarks(e.gens[1..]) + ElementMarks(e))
            && Used(Flat(ns.(nested := ns.nested[..|ns.nested| - 1]))) == Used(Marks(e.gens[0].iter))
  {
    hide Flat, Join, Inside, Element, Reads, Marks, FlatNest, TargetMarks, MarksAll, GenMarks, ElementMarks, Clauses,
      FirstClause;
    var g := e.gens[0];
    CompShape(e);
    ElementIs(e);
    ClauseMarks(g);
    ReadsMarks(g.iter);
    ClausesMarks(e.gens[1..]);
    InsideIs(e.gens);
    FlatJoin(FirstClause(g), Clauses(e.gens[1..]));
    FlatJoin(Inside(e.gens), Element(e));
    CompSplit(Reads(g.iter), Join(Inside(e.gens), Element(e)));
  }

  function ElementMarks(e: Expr): set<Note>
    requires IsComp(e)
  {
    if e.DictComp? then Marks(e.key) + Marks(e.elt) else Marks(e.elt)
  }

  lemma ElementIs(e: Expr)
    requires IsComp(e)
    ensures Flat(Element(e)) == ElementMarks(e)
  {
    hide Flat, Join, Reads, Marks;
    ReadsMarks(e.elt);
    if e.DictComp? {
      ReadsMarks(e.key);
      FlatJoin(Reads(e.key), Reads(e.elt));
    }
  }

  lemma CompSplit(outer: Names, inner: Names)
    ensures var ns := Join(outer, Closed(CompScope, inner));
            && ns.nested != []
            && ns.nested[|ns.nested| - 1].kind == CompScope
            && Used(FlatNest(ns.nested[|ns.nested| - 1])) == Used(Flat(inner))
            && Used(Flat(ns.(nested := ns.nested[..|ns.nested| - 1]))) == Used(Flat(outer))
  {
    hide FlatAll;
    var ns := Join(outer, Closed(CompScope, inner));
    assert ns.nested[..|ns.nested| - 1] == outer.nested;
  }

  // ----- the whole table -----

  lemma {:induction false} InSome(nests: seq<Nest>, m: Note)
    ensures m in FlatAll(nests) <==> exists k | 0 <= k < |nests| :: m in FlatNest(nests[k])
    decreases nests
  {
    hide FlatNest;
    if nests != [] {
      InSome(nests[1..], m);
      assert forall k | 0 < k < |nests| :: nests[k] == nests[1..][k - 1];
      assert forall k | 0 <= k < |nests[1..]| :: nests[1..][k] == nests[k + 1];
    }
  }

  /** A scope of the table holds a name in a role. */
  predicate Holds(s: Scope, m: Note) {
    if m.flag == FBound then m.name in Bound(s) else m in Noted(s)
  }

  lemma OwnMarks(s: Scope, n: Nest, m: Note)
    requires Bound(s) == n.bound && Noted(s) == n.noted
    ensures Holds(s, m) <==> m in Stored(n.bound) + n.noted
  {
  }

  /** A scope and those below it hold what their nest says. */
  lemma {:induction false} NestHeld(t: Tree, i: nat, n: Nest, m: Note)
    requires WellFormed(t) && Matches(t, i, n)
    ensures m in FlatNest(n) <==> exists j | 0 <= j < |t| :: Under(t, i, j) && Holds(t[j], m)
    decreases n
  {
    hide WellFormed, Holds, FlatAll, Under, Bound, Noted, Stored;
    OwnMarks(t[i], n, m);
    InSome(n.nested, m);
    Itself(t, i);
    forall k | 0 <= k < |n.nested|
      ensures m in FlatNest(n.nested[k]) <==>
              exists j | 0 <= j < |t| :: Under(t, t[i].children[k], j) && Holds(t[j], m)
    {
      assert Matches(t, t[i].children[k], n.nested[k]);
      NestHeld(t, t[i].children[k], n.nested[k], m);
    }
    if m in FlatAll(n.nested) {
      var k :| 0 <= k < |n.nested| && m in FlatNest(n.nested[k]);
      var j :| 0 <= j < |t| && Under(t, t[i].children[k], j) && Holds(t[j], m);
      ChildUnder(t, i, k, j);
    }
    forall j | 0 <= j < |t| && Under(t, i, j) && Holds(t[j], m) && j != i
      ensures m in FlatAll(n.nested)
    {
      UnderChild(t, i, j);
      var k :| 0 <= k < |t[i].children| && Under(t, t[i].children[k], j);
      assert m in FlatNest(n.nested[k]);
    }
  }

  lemma Itself(t: Tree, i: nat)
    requires WellFormed(t) && i < |t|
    ensures Under(t, i, i)
  {
  }

  lemma ModuleMarks(b: seq<Stmt>)
    ensures var ns := InBody(b);
            FlatNest(Nest(ModuleScope, ns.bound + ns.walrus, ns.noted, ns.nested)) == BodyMarks(b)
  {
    BodyNames(b);
    hide FlatAll, InBody, BodyMarks;
  }

  /** The table that Build gives for a module: some scope of it has a name with the flag of a role exactly
      when the name is written in that role somewhere in the module. */
  lemma TableHolds(t: Tree, b: seq<Stmt>, n: string, f: Flag)
    requires WellFormed(t)
    requires Matches(t, 0, Nest(ModuleScope, InBody(b).bound + InBody(b).walrus, InBody(b).noted, InBody(b).nested))
    requires f == FBound || Notable(f)
    ensures (exists i | 0 <= i < |t| :: Has(t[i], n, f)) <==> Note(f, n) in BodyMarks(b)
  {
    hide WellFormed, Matches, InBody, BodyMarks, Under;
    ModuleMarks(b);
    var ns := InBody(b);
    NestHeld(t, 0, Nest(ModuleScope, ns.bound + ns.walrus, ns.noted, ns.nested), Note(f, n));
    forall i | 0 <= i < |t|
      ensures Under(t, 0, i) && (Holds(t[i], Note(f, n)) <==> Has(t[i], n, f))
    {
      RootAbove(t, i);
    }
  }
}
