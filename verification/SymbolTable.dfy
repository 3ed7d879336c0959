/** The symbol-table builder (symbols/symbols.go): a walk that grows a tree of scopes, with a
    current scope that every nested scope pushes and pops, and the pass that marks free and cell
    names. */
module SymbolTable {
  import opened Tokens
  import opened Ast
  import opened Scopes
  import opened Bindings

  // ----- what one part of a walk does to the tree -----

  function Bound(s: Scope): set<string> {
    set n | n in s.symbols && FBound in s.symbols[n]
  }

  /** Flags that say how a name is used in a scope. */
  predicate Notable(f: Flag) {
    f == FUsed || f == FGlobal || f == FNonlocal
  }

  /** Flags that come with a binding. */
  predicate Binding(fs: set<Flag>) {
    FFree !in fs && FCell !in fs && forall f | f in fs :: !Notable(f)
  }

  function Noted(s: Scope): set<Note> {
    set n, f | n in s.symbols && f in s.symbols[n] && Notable(f) :: Note(f, n)
  }

  /** The notes that flags fs make about n. */
  function Notes(fs: set<Flag>, n: string): set<Note> {
    set f | f in fs && Notable(f) :: Note(f, n)
  }

  /** The nearest scope that is not a comprehension. */
  function Home(t: Tree, at: nat): (h: nat)
    requires WellFormed(t) && at < |t|
    ensures h <= at && t[h].kind != CompScope
    decreases at
  {
    if t[at].kind == CompScope then Home(t, t[at].parent.value) else at
  }

  /** Scope k of the tree holds what a nest says, all the way down. */
  ghost predicate Matches(t: Tree, k: nat, n: Nest)
    requires WellFormed(t)
    decreases n
  {
    && k < |t| && t[k].kind == n.kind && Bound(t[k]) == n.bound && Noted(t[k]) == n.noted
    && |t[k].children| == |n.nested|
    && forall m | 0 <= m < |n.nested| :: Matches(t, t[k].children[m], n.nested[m])
  }

  /** Flags are only added, and Free and Cell are not among them. */
  ghost predicate Grown(a: Scope, b: Scope) {
    && a.kind == b.kind && a.parent == b.parent
    && (forall n, f | Has(a, n, f) :: Has(b, n, f))
    && (forall n | Has(b, n, FFree) || Has(b, n, FCell) :: Has(a, n, FFree) || Has(a, n, FCell))
  }

  ghost predicate Clear(s: Scope) {
    forall n :: !Has(s, n, FFree) && !Has(s, n, FCell)
  }

  /** From tree a to tree b, a walk in scope `at` has bound and used the names ns: older scopes
      stay where they are and only gain names, and the scopes opened below `at` match. */
  ghost predicate Step(a: Tree, b: Tree, at: nat, ns: Names)
    requires WellFormed(a) && at < |a|
  {
    && WellFormed(b) && |a| <= |b|
    && (forall i | 0 <= i < |a| :: Grown(a[i], b[i]))
    && (forall i | |a| <= i < |b| :: Clear(b[i]))
    && (forall i | 0 <= i < |a| && i != at :: b[i].children == a[i].children)
    && (forall i | 0 <= i < |a| :: Bound(b[i]) == Bound(a[i]) + Gained(a, i, at, ns))
    && (forall i | 0 <= i < |a| :: Noted(b[i]) == Noted(a[i]) + GainedNotes(i, at, ns))
    && |b[at].children| == |a[at].children| + |ns.nested|
    && a[at].children == b[at].children[..|a[at].children|]
    && forall m | 0 <= m < |ns.nested| :: Matches(b, b[at].children[|a[at].children| + m], ns.nested[m])
  }

  function Gained(a: Tree, i: nat, at: nat, ns: Names): set<string>
    requires WellFormed(a) && at < |a|
  {
    (if i == at then ns.bound else {}) + (if i == Home(a, at) then ns.walrus else {})
  }

  function GainedNotes(i: nat, at: nat, ns: Names): set<Note> {
    if i == at then ns.noted else {}
  }

  lemma StepNone(t: Tree, at: nat)
    requires WellFormed(t) && at < |t|
    ensures Step(t, t, at, NOTHING)
  {
    hide WellFormed;
    assert t[at].children == t[at].children[..|t[at].children|];
  }

  lemma {:induction false} HomeKept(a: Tree, b: Tree, at: nat)
    requires WellFormed(a) && WellFormed(b) && at < |a| <= |b|
    requires forall i | 0 <= i < |a| :: Grown(a[i], b[i])
    ensures Home(b, at) == Home(a, at)
    decreases at
  {
    assert Grown(a[at], b[at]);
    if a[at].kind == CompScope {
      HomeKept(a, b, a[at].parent.value);
    }
  }

  /** What lies beyond the scope of a walk is not touched by it. */
  lemma {:induction false} MatchesKept(a: Tree, b: Tree, at: nat, ns: Names, k: nat, n: Nest)
    requires WellFormed(a) && at < |a| && Step(a, b, at, ns)
    requires at < k && Matches(a, k, n)
    ensures Matches(b, k, n)
    decreases n
  {
    hide WellFormed, Grown, Clear;
    assert Home(a, at) <= at;
    assert Gained(a, k, at, ns) == {};
    assert Bound(b[k]) == Bound(a[k]) + Gained(a, k, at, ns);
    assert Noted(b[k]) == Noted(a[k]) + GainedNotes(k, at, ns);
    assert b[k].children == a[k].children;
    GrownKind(a[k], b[k]);
    forall m | 0 <= m < |n.nested|
      ensures Matches(b, b[k].children[m], n.nested[m])
    {
      assert Matches(a, a[k].children[m], n.nested[m]);
      ChildLater(a, k, m);
      MatchesKept(a, b, at, ns, a[k].children[m], n.nested[m]);
    }
  }

  lemma GrownKind(a: Scope, b: Scope)
    requires Grown(a, b)
    ensures a.kind == b.kind && a.parent == b.parent
  {
  }

  lemma ChildLater(t: Tree, k: nat, m: nat)
    requires WellFormed(t) && k < |t| && m < |t[k].children|
    ensures k < t[k].children[m] < |t|
  {
    assert Kids(t, k);
  }

  lemma GrownTrans(a: Scope, b: Scope, c: Scope)
    requires Grown(a, b) && Grown(b, c)
    ensures Grown(a, c)
  {
  }

  lemma GrownClear(a: Scope, b: Scope)
    requires Grown(a, b) && Clear(a)
    ensures Clear(b)
  {
  }

  /** One walk after another in the same scope. */
  lemma StepJoin(a: Tree, b: Tree, c: Tree, at: nat, m: Names, n: Names)
    requires WellFormed(a) && at < |a| && Step(a, b, at, m) && Step(b, c, at, n)
    ensures Step(a, c, at, Join(m, n))
  {
    hide WellFormed, Grown, Clear, Matches, Bound, Noted;
    HomeKept(a, b, at);
    forall i | 0 <= i < |a|
      ensures Grown(a[i], c[i])
      ensures Bound(c[i]) == Bound(a[i]) + Gained(a, i, at, Join(m, n))
      ensures Noted(c[i]) == Noted(a[i]) + GainedNotes(i, at, Join(m, n))
    {
      GrownTrans(a[i], b[i], c[i]);
      assert Bound(b[i]) == Bound(a[i]) + Gained(a, i, at, m);
      assert Bound(c[i]) == Bound(b[i]) + Gained(b, i, at, n);
      assert Noted(b[i]) == Noted(a[i]) + GainedNotes(i, at, m);
      assert Noted(c[i]) == Noted(b[i]) + GainedNotes(i, at, n);
    }
    forall i | |a| <= i < |c|
      ensures Clear(c[i])
    {
      if i < |b| {
        GrownClear(b[i], c[i]);
      }
    }
    JoinChildren(a, b, c, at, m, n);
  }

  lemma JoinChildren(a: Tree, b: Tree, c: Tree, at: nat, m: Names, n: Names)
    requires WellFormed(a) && at < |a| && Step(a, b, at, m) && Step(b, c, at, n)
    ensures |c[at].children| == |a[at].children| + |Join(m, n).nested|
    ensures a[at].children == c[at].children[..|a[at].children|]
    ensures forall k | 0 <= k < |Join(m, n).nested| :: Matches(c, c[at].children[|a[at].children| + k],
      Join(m, n).nested[k])
  {
    hide WellFormed, Grown, Clear, Matches, Bound, Noted, Gained;
    var n0, n1 := |a[at].children|, |b[at].children|;
    assert b[at].children == c[at].children[..n1];
    assert a[at].children == c[at].children[..n1][..n0] == c[at].children[..n0];
    forall k | 0 <= k < |Join(m, n).nested|
      ensures Matches(c, c[at].children[n0 + k], Join(m, n).nested[k])
    {
      if k < |m.nested| {
        var kid := b[at].children[n0 + k];
        assert Matches(b, kid, m.nested[k]);
        assert c[at].children[n0 + k] == kid;
        ChildLater(b, at, n0 + k);
        MatchesKept(b, c, at, n, kid, m.nested[k]);
      } else {
        assert Matches(c, c[at].children[n1 + (k - |m.nested|)], n.nested[k - |m.nested|]);
      }
    }
  }

  // ----- single changes -----

  /** The tree with flags fs added to name n of scope i. */
  function With(t: Tree, i: nat, n: string, fs: set<Flag>): (r: Tree)
    requires i < |t|
    ensures |r| == |t|
  {
    var s := t[i];
    var had := if n in s.symbols then s.symbols[n] else {};
    t[i := s.(symbols := s.symbols[n := had + fs])]
  }

  lemma WithWellFormed(t: Tree, i: nat, n: string, fs: set<Flag>)
    requires WellFormed(t) && i < |t|
    ensures WellFormed(With(t, i, n, fs))
  {
    hide WellFormed;
    SameShapeWellFormed(t, With(t, i, n, fs));
  }

  lemma WithScope(s: Scope, n: string, fs: set<Flag>)
    requires FFree !in fs && FCell !in fs
    ensures var had := if n in s.symbols then s.symbols[n] else {};
            var r := s.(symbols := s.symbols[n := had + fs]);
            && Grown(s, r)
            && Bound(r) == Bound(s) + (if FBound in fs then {n} else {})
            && Noted(r) == Noted(s) + Notes(fs, n)
  {
  }

  /** Binding a name in scope i, which is the current scope or its home, or using it. */
  lemma WithStep(t: Tree, at: nat, i: nat, n: string, fs: set<Flag>, ns: Names)
    requires WellFormed(t) && at < |t| && i < |t|
    requires FFree !in fs && FCell !in fs && ns.nested == []
    requires forall j | 0 <= j < |t| :: Gained(t, j, at, ns) == if j == i && FBound in fs then {n} else {}
    requires forall j | 0 <= j < |t| :: GainedNotes(j, at, ns) == if j == i then Notes(fs, n) else {}
    ensures Step(t, With(t, i, n, fs), at, ns)
  {
    hide Gained, GainedNotes, Bound, Noted, Matches, WellFormed, Grown, Clear, With;
    WithWellFormed(t, i, n, fs);
    WithScope(t[i], n, fs);
    WithParts(t, i, n, fs);
    var b := With(t, i, n, fs);
    forall j | 0 <= j < |t|
      ensures Grown(t[j], b[j])
      ensures Bound(b[j]) == Bound(t[j]) + Gained(t, j, at, ns)
      ensures Noted(b[j]) == Noted(t[j]) + GainedNotes(j, at, ns)
      ensures b[j].children == t[j].children
    {
      if j != i {
        GrownSame(t[j]);
      }
    }
    assert t[at].children == b[at].children[..|t[at].children|];
  }

  lemma WithParts(t: Tree, i: nat, n: string, fs: set<Flag>)
    requires i < |t|
    ensures var b := With(t, i, n, fs);
            var had := if n in t[i].symbols then t[i].symbols[n] else {};
            && |b| == |t| && b[i] == t[i].(symbols := t[i].symbols[n := had + fs])
            && forall j | 0 <= j < |t| && j != i :: b[j] == t[j]
  {
  }

  lemma GrownSame(s: Scope)
    ensures Grown(s, s)
  {
  }

  /** A new scope below scope `at`. */
  function Pushed(t: Tree, at: nat, kind: Kind): Tree
    requires at < |t|
  {
    t[at := t[at].(children := t[at].children + [|t|])] + [Scope(kind, Some(at), [], map[])]
  }

  lemma PushedWellFormed(t: Tree, at: nat, kind: Kind)
    requires WellFormed(t) && at < |t| && kind != ModuleScope
    ensures WellFormed(Pushed(t, at, kind))
  {
    var r := Pushed(t, at, kind);
    assert r[at].children[|t[at].children|] == |t|;
    forall i | 0 < i < |r|
      ensures r[i].parent.value < i && i in r[r[i].parent.value].children
    {
      if i < |t| {
        var p := t[i].parent.value;
        var k :| 0 <= k < |t[p].children| && t[p].children[k] == i;
        assert r[p].children[k] == i;
      }
    }
    forall i | 0 <= i < |r|
      ensures Kids(r, i)
    {
      if i < |t| {
        PushedKids(t, at, kind, i);
      }
    }
  }

  lemma PushedKids(t: Tree, at: nat, kind: Kind, i: nat)
    requires at < |t| && i < |t| && Kids(t, i)
    ensures Kids(Pushed(t, at, kind), i)
  {
  }

  /** A walk in a scope of its own, seen from the scope around it. */
  lemma NestedStep(a: Tree, at: nat, kind: Kind, b: Tree, ns: Names)
    requires WellFormed(a) && at < |a| && kind != ModuleScope
    requires WellFormed(Pushed(a, at, kind)) && Step(Pushed(a, at, kind), b, |a|, ns)
    ensures Step(a, b, at, Closed(kind, ns))
  {
    hide WellFormed, Grown, Clear, Matches, Bound, Noted;
    var p := Pushed(a, at, kind);
    HomePushed(a, at, kind);
    forall i | 0 <= i < |a|
      ensures Grown(a[i], b[i])
      ensures Bound(b[i]) == Bound(a[i]) + Gained(a, i, at, Closed(kind, ns))
      ensures Noted(b[i]) == Noted(a[i])
    {
      assert Grown(p[i], b[i]);
      GrownFrom(a[i], p[i], b[i]);
      assert Bound(b[i]) == Bound(p[i]) + Gained(p, i, |a|, ns);
      assert Noted(b[i]) == Noted(p[i]) + {};
    }
    NestedNew(a, at, kind, b, ns);
  }

  lemma GrownFrom(a: Scope, p: Scope, b: Scope)
    requires p == a.(children := p.children) && Grown(p, b)
    ensures Grown(a, b) && Bound(p) == Bound(a) && Noted(p) == Noted(a)
  {
  }

  lemma HomePushed(a: Tree, at: nat, kind: Kind)
    requires WellFormed(a) && at < |a| && WellFormed(Pushed(a, at, kind))
    ensures Home(Pushed(a, at, kind), |a|) == if kind == CompScope then Home(a, at) else |a|
  {
    HomeSame(a, at, kind, at);
  }

  lemma {:induction false} HomeSame(a: Tree, at: nat, kind: Kind, i: nat)
    requires WellFormed(a) && at < |a| && WellFormed(Pushed(a, at, kind)) && i < |a|
    ensures Home(Pushed(a, at, kind), i) == Home(a, i)
    decreases i
  {
    if a[i].kind == CompScope {
      HomeSame(a, at, kind, a[i].parent.value);
    }
  }

  lemma NestedNew(a: Tree, at: nat, kind: Kind, b: Tree, ns: Names)
    requires WellFormed(a) && at < |a| && kind != ModuleScope
    requires WellFormed(Pushed(a, at, kind)) && Step(Pushed(a, at, kind), b, |a|, ns)
    ensures forall i | |a| <= i < |b| :: Clear(b[i])
    ensures b[at].children == a[at].children + [|a|]
    ensures forall i | 0 <= i < |a| && i != at :: b[i].children == a[i].children
    ensures Closed(kind, ns).nested == [Closed(kind, ns).nested[0]]
    ensures Matches(b, |a|, Closed(kind, ns).nested[0])
  {
    hide WellFormed;
    var p := Pushed(a, at, kind);
    var c := |a|;
    HomePushed(a, at, kind);
    assert Bound(p[c]) == {} && Noted(p[c]) == {};
    assert Bound(b[c]) == Bound(p[c]) + Gained(p, c, c, ns);
    assert Noted(b[c]) == Noted(p[c]) + ns.noted;
    assert Clear(p[c]);
    GrownClear(p[c], b[c]);
    assert b[at].children == p[at].children;
    forall m | 0 <= m < |ns.nested|
      ensures Matches(b, b[c].children[m], ns.nested[m])
    {
      assert Matches(b, b[c].children[|p[c].children| + m], ns.nested[m]);
    }
  }

  lemma JoinLaws(a: Names, b: Names, c: Names)
    ensures Join(Join(a, b), c) == Join(a, Join(b, c))
    ensures Join(a, NOTHING) == a && Join(NOTHING, a) == a
  {
    assert a.nested + b.nested + c.nested == a.nested + (b.nested + c.nested);
    assert a.nested + [] == a.nested && [] + a.nested == a.nested;
  }

  // ----- the builder -----

  class Builder {
    var scopes: Tree
    var cur: nat

    ghost predicate Valid()
      reads this
    {
      WellFormed(scopes) && cur < |scopes|
    }

    constructor ()
      ensures Valid() && cur == 0
      ensures scopes == [Scope(ModuleScope, None, [], map[])]
    {
      scopes, cur := [Scope(ModuleScope, None, [], map[])], 0;
    }

    method Push(kind: Kind)
      requires Valid() && kind != ModuleScope
      modifies this
      ensures Valid() && cur == |old(scopes)|
      ensures scopes == Pushed(old(scopes), old(cur), kind)
    {
      PushedWellFormed(scopes, cur, kind);
      scopes, cur := Pushed(scopes, cur, kind), |scopes|;
    }

    /** Back to the scope around the current one. */
    method Pop()
      requires Valid()
      modifies this`cur
      ensures Valid()
      ensures cur == if old(scopes[cur].parent).Some? then old(scopes[cur].parent.value) else old(cur)
    {
      if scopes[cur].parent.Some? {
        cur := scopes[cur].parent.value;
      }
    }

    method Bind(scope: nat, n: string, fs: set<Flag>)
      requires Valid() && scope < |scopes|
      modifies this`scopes
      ensures Valid()
      ensures scopes == if n == "" then old(scopes) else With(old(scopes), scope, n, fs + {FBound})
    {
      if n == "" {
        return;
      }
      WithWellFormed(scopes, scope, n, fs + {FBound});
      scopes := With(scopes, scope, n, fs + {FBound});
    }

    /** Binding in the current scope. */
    method BindHere(n: string, fs: set<Flag>)
      requires Valid() && Binding(fs)
      modifies this`scopes
      ensures Valid() && Step(old(scopes), scopes, cur, Bindings.Bind(n))
    {
      hide Step, WellFormed;
      StepNone(scopes, cur);
      if n != "" {
        WithStep(scopes, cur, cur, n, fs + {FBound}, Bindings.Bind(n));
      }
      Bind(cur, n, fs);
    }

    method UseHere(n: string)
      requires Valid()
      modifies this`scopes
      ensures Valid() && Step(old(scopes), scopes, cur, Bindings.Use(n))
    {
      hide Step, WellFormed;
      StepNone(scopes, cur);
      if n == "" {
        return;
      }
      assert Notes({FUsed}, n) == {Note(FUsed, n)};
      WithStep(scopes, cur, cur, n, {FUsed}, Bindings.Use(n));
      WithWellFormed(scopes, cur, n, {FUsed});
      scopes := With(scopes, cur, n, {FUsed});
    }

    /** `global` and `nonlocal`; says whether the name had been declared the other way. */
    method Declare(n: string, flag: Flag) returns (clash: bool)
      requires Valid() && (flag == FGlobal || flag == FNonlocal)
      modifies this`scopes
      ensures Valid() && scopes == With(old(scopes), cur, n, {flag})
      ensures Step(old(scopes), scopes, cur, Names({}, {Note(flag, n)}, {}, []))
      ensures clash == Has(old(scopes)[cur], n, if flag == FGlobal then FNonlocal else FGlobal)
    {
      clash := Has(scopes[cur], n, if flag == FGlobal then FNonlocal else FGlobal);
      hide Step, WellFormed;
      assert Notes({flag}, n) == {Note(flag, n)};
      WithStep(scopes, cur, cur, n, {flag}, Names({}, {Note(flag, n)}, {}, []));
      WithWellFormed(scopes, cur, n, {flag});
      scopes := With(scopes, cur, n, {flag});
    }

    /** `name := value`: the name belongs to the nearest scope that is not a comprehension. */
    method BindWalrus(n: string)
      requires Valid()
      modifies this`scopes
      ensures Valid() && Step(old(scopes), scopes, cur, Names({}, {}, Just(n), []))
      ensures n != "" ==> scopes == With(old(scopes), Home(old(scopes), cur), n, {FBound})
    {
      var scope: nat := cur;
      while scopes[scope].parent.Some? && scopes[scope].kind == CompScope
        invariant scope < |scopes| && Home(scopes, scope) == Home(scopes, cur)
        decreases scope
      {
        scope := scopes[scope].parent.value;
      }
      assert scope == Home(scopes, cur);
      hide Step, WellFormed;
      StepNone(scopes, cur);
      if n != "" {
        WithStep(scopes, cur, scope, n, {FBound}, Names({}, {}, Just(n), []));
        assert {} + {FBound} == {FBound};
      }
      Bind(scope, n, {});
    }

    method Expr(e: Expr)
      requires Valid()
      modifies this
      ensures Valid() && cur == old(cur) && Step(old(scopes), scopes, cur, Reads(e))
      decreases e, 1
    {
      hide Step, WellFormed;
      match e
      case Name(id) => UseHere(id);
      case Constant(_) => StepNone(scopes, cur);
      case BoolOp(_, vs) => Exprs(vs);
      case NamedExpr(_, _) => Parts(e);
      case BinOp(_, _, _) => Parts(e);
      case UnaryOp(_, x) => Expr(x);
      case Lambda(ps, b) => LambdaExpr(e);
      case IfExp(_, _, _) => Parts(e);
      case Dict(_) => Parts(e);
      case Set(es) => Exprs(es);
      case ListComp(_, gs) => Comp(e);
      case SetComp(_, gs) => Comp(e);
      case DictComp(_, _, gs) => Comp(e);
      case GeneratorExp(_, gs) => Comp(e);
      case Await(x) => Expr(x);
      case Yield(v) => Opt(v);
      case YieldFrom(x) => Expr(x);
      case Compare(_, _) => Applied(e);
      case Call(_, _, _) => Applied(e);
      case Attribute(v, _) => Expr(v);
      case Subscript(_, _) => Applied(e);
      case Starred(x) => Expr(x);
      case ListExpr(es) => Exprs(es);
      case Tuple(es) => Exprs(es);
      case Slice(lo, up, st) =>
        ghost var t0 := scopes;
        Opt(lo);
        ghost var t1 := scopes;
        Opt(up);
        StepJoin(t0, t1, scopes, cur, ReadsOpt(lo), ReadsOpt(up));
        ghost var t2 := scopes;
        Opt(st);
        StepJoin(t0, t2, scopes, cur, Join(ReadsOpt(lo), ReadsOpt(up)), ReadsOpt(st));
    }

    /** An operation, a conditional, a named expression or a dictionary. */
    method Parts(e: Expr)
      requires Valid() && (e.NamedExpr? || e.BinOp? || e.IfExp? || e.Dict?)
      modifies this
      ensures Valid() && cur == old(cur) && Step(old(scopes), scopes, cur, Reads(e))
      decreases e, 0
    {
      hide Step, WellFormed;
      match e
      case NamedExpr(t, v) =>
        ghost var t0 := scopes;
        Expr(v);
        ghost var t1 := scopes;
        StepNone(scopes, cur);
        if t.Name? {
          BindWalrus(t.id);
        }
        StepJoin(t0, t1, scopes, cur, Reads(v), Names({}, {}, if t.Name? then Just(t.id) else {}, []));
      case BinOp(_, l, r) =>
        ghost var t0 := scopes;
        Expr(l);
        ghost var t1 := scopes;
        Expr(r);
        StepJoin(t0, t1, scopes, cur, Reads(l), Reads(r));
      case IfExp(t, b, o) =>
        ghost var t0 := scopes;
        Expr(t);
        ghost var t1 := scopes;
        Expr(b);
        StepJoin(t0, t1, scopes, cur, Reads(t), Reads(b));
        ghost var t2 := scopes;
        Expr(o);
        StepJoin(t0, t2, scopes, cur, Join(Reads(t), Reads(b)), Reads(o));
      case Dict(items) =>
        ghost var t0 := scopes;
        Keys(items);
        ghost var t1 := scopes;
        Values(items);
        StepJoin(t0, t1, scopes, cur, ReadsKeys(items), ReadsValues(items));
    }

    /** A comparison, a call or a subscript. */
    method Applied(e: Expr)
      requires Valid() && (e.Compare? || e.Call? || e.Subscript?)
      modifies this
      ensures Valid() && cur == old(cur) && Step(old(scopes), scopes, cur, Reads(e))
      decreases e, 0
    {
      hide Step, WellFormed;
      match e
      case Compare(l, cs) =>
        ghost var t0 := scopes;
        Expr(l);
        ghost var t1 := scopes;
        Comparators(cs);
        StepJoin(t0, t1, scopes, cur, Reads(l), ReadsComparisons(cs));
      case Call(f, args, kws) =>
        ghost var t0 := scopes;
        Expr(f);
        ghost var t1 := scopes;
        Exprs(args);
        StepJoin(t0, t1, scopes, cur, Reads(f), ReadsAll(args));
        ghost var t2 := scopes;
        Keywords(kws);
        StepJoin(t0, t2, scopes, cur, Join(Reads(f), ReadsAll(args)), ReadsKeywords(kws));
      case Subscript(v, x) =>
        ghost var t0 := scopes;
        Expr(v);
        ghost var t1 := scopes;
        Expr(x);
        StepJoin(t0, t1, scopes, cur, Reads(v), Reads(x));
    }

    method Opt(o: Option<Expr>)
      requires Valid()
      modifies this
      ensures Valid() && cur == old(cur) && Step(old(scopes), scopes, cur, ReadsOpt(o))
      decreases o
    {
      hide Step, WellFormed, Reads;
      StepNone(scopes, cur);
      if o.Some? {
        Expr(o.value);
      }
    }

    method Exprs(es: seq<Expr>)
      requires Valid()
      modifies this
      ensures Valid() && cur == old(cur) && Step(old(scopes), scopes, cur, ReadsAll(es))
      decreases es
    {
      hide Step, WellFormed, Reads;
      ghost var t0 := scopes;
      ghost var acc := NOTHING;
      StepNone(scopes, cur);
      JoinLaws(ReadsAll(es), NOTHING, NOTHING);
      assert es[0..] == es;
      for i := 0 to |es|
        invariant Valid() && cur == old(cur) && Step(t0, scopes, cur, acc)
        invariant Join(acc, ReadsAll(es[i..])) == ReadsAll(es)
      {
        ghost var t1 := scopes;
        Expr(es[i]);
        assert es[i..][0] == es[i] && es[i..][1..] == es[i + 1..];
        StepJoin(t0, t1, scopes, cur, acc, Reads(es[i]));
        JoinLaws(acc, Reads(es[i]), ReadsAll(es[i + 1..]));
        acc := Join(acc, Reads(es[i]));
      }
      assert es[|es|..] == [];
      JoinLaws(acc, NOTHING, NOTHING);
    }

    method Comparators(cs: seq<Comparison>)
      requires Valid()
      modifies this
      ensures Valid() && cur == old(cur) && Step(old(scopes), scopes, cur, ReadsComparisons(cs))
      decreases cs
    {
      hide Step, WellFormed, ReadsRight;
      ghost var t0 := scopes;
      ghost var acc := NOTHING;
      StepNone(scopes, cur);
      JoinLaws(ReadsComparisons(cs), NOTHING, NOTHING);
      assert cs[0..] == cs;
      for i := 0 to |cs|
        invariant Valid() && cur == old(cur) && Step(t0, scopes, cur, acc)
        invariant Join(acc, ReadsComparisons(cs[i..])) == ReadsComparisons(cs)
      {
        ghost var t1 := scopes;
        Comparator(cs[i]);
        assert cs[i..][0] == cs[i] && cs[i..][1..] == cs[i + 1..];
        StepJoin(t0, t1, scopes, cur, acc, ReadsRight(cs[i]));
        JoinLaws(acc, ReadsRight(cs[i]), ReadsComparisons(cs[i + 1..]));
        acc := Join(acc, ReadsRight(cs[i]));
      }
      assert cs[|cs|..] == [];
      JoinLaws(acc, NOTHING, NOTHING);
    }

    method Comparator(c: Comparison)
      requires Valid()
      modifies this
      ensures Valid() && cur == old(cur) && Step(old(scopes), scopes, cur, ReadsRight(c))
      decreases c
    {
      hide Step, WellFormed, Reads;
      Expr(c.right);
    }

    method Keys(items: seq<DictItem>)
      requires Valid()
      modifies this
      ensures Valid() && cur == old(cur) && Step(old(scopes), scopes, cur, ReadsKeys(items))
      decreases items
    {
      hide Step, WellFormed, ReadsKey;
      ghost var t0 := scopes;
      ghost var acc := NOTHING;
      StepNone(scopes, cur);
      JoinLaws(ReadsKeys(items), NOTHING, NOTHING);
      assert items[0..] == items;
      for i := 0 to |items|
        invariant Valid() && cur == old(cur) && Step(t0, scopes, cur, acc)
        invariant Join(acc, ReadsKeys(items[i..])) == ReadsKeys(items)
      {
        ghost var t1 := scopes;
        Key(items[i]);
        assert items[i..][0] == items[i] && items[i..][1..] == items[i + 1..];
        StepJoin(t0, t1, scopes, cur, acc, ReadsKey(items[i]));
        JoinLaws(acc, ReadsKey(items[i]), ReadsKeys(items[i + 1..]));
        acc := Join(acc, ReadsKey(items[i]));
      }
      assert items[|items|..] == [];
      JoinLaws(acc, NOTHING, NOTHING);
    }

    method Key(it: DictItem)
      requires Valid()
      modifies this
      ensures Valid() && cur == old(cur) && Step(old(scopes), scopes, cur, ReadsKey(it))
      decreases it
    {
      hide Step, WellFormed, Reads;
      Opt(it.key);
    }

    method Values(items: seq<DictItem>)
      requires Valid()
      modifies this
      ensures Valid() && cur == old(cur) && Step(old(scopes), scopes, cur, ReadsValues(items))
      decreases items
    {
      hide Step, WellFormed, ReadsValue;
      ghost var t0 := scopes;
      ghost var acc := NOTHING;
      StepNone(scopes, cur);
      JoinLaws(ReadsValues(items), NOTHING, NOTHING);
      assert items[0..] == items;
      for i := 0 to |items|
        invariant Valid() && cur == old(cur) && Step(t0, scopes, cur, acc)
        invariant Join(acc, ReadsValues(items[i..])) == ReadsValues(items)
      {
        ghost var t1 := scopes;
        Value(items[i]);
        assert items[i..][0] == items[i] && items[i..][1..] == items[i + 1..];
        StepJoin(t0, t1, scopes, cur, acc, ReadsValue(items[i]));
        JoinLaws(acc, ReadsValue(items[i]), ReadsValues(items[i + 1..]));
        acc := Join(acc, ReadsValue(items[i]));
      }
      assert items[|items|..] == [];
      JoinLaws(acc, NOTHING, NOTHING);
    }

    method Value(it: DictItem)
      requires Valid()
      modifies this
      ensures Valid() && cur == old(cur) && Step(old(scopes), scopes, cur, ReadsValue(it))
      decreases it
    {
      hide Step, WellFormed, Reads;
      Expr(it.value);
    }

    method Keywords(kws: seq<Keyword>)
      requires Valid()
      modifies this
      ensures Valid() && cur == old(cur) && Step(old(scopes), scopes, cur, ReadsKeywords(kws))
      decreases kws
    {
      hide Step, WellFormed, ReadsKeyword;
      ghost var t0 := scopes;
      ghost var acc := NOTHING;
      StepNone(scopes, cur);
      JoinLaws(ReadsKeywords(kws), NOTHING, NOTHING);
      assert kws[0..] == kws;
      for i := 0 to |kws|
        invariant Valid() && cur == old(cur) && Step(t0, scopes, cur, acc)
        invariant Join(acc, ReadsKeywords(kws[i..])) == ReadsKeywords(kws)
      {
        ghost var t1 := scopes;
        KeywordValue(kws[i]);
        assert kws[i..][0] == kws[i] && kws[i..][1..] == kws[i + 1..];
        StepJoin(t0, t1, scopes, cur, acc, ReadsKeyword(kws[i]));
        JoinLaws(acc, ReadsKeyword(kws[i]), ReadsKeywords(kws[i + 1..]));
        acc := Join(acc, ReadsKeyword(kws[i]));
      }
      assert kws[|kws|..] == [];
      JoinLaws(acc, NOTHING, NOTHING);
    }

    method KeywordValue(kw: Keyword)
      requires Valid()
      modifies this
      ensures Valid() && cur == old(cur) && Step(old(scopes), scopes, cur, ReadsKeyword(kw))
      decreases kw
    {
      hide Step, WellFormed, Reads;
      Expr(kw.value);
    }

    /** A lambda: its parameters and its body in a scope of their own. */
    method LambdaExpr(e: Expr)
      requires Valid() && e.Lambda?
      modifies this
      ensures Valid() && cur == old(cur) && Step(old(scopes), scopes, cur, Reads(e))
      decreases e, 0
    {
      hide Step, WellFormed;
      ghost var a := scopes;
      ghost var at := cur;
      Push(LambdaScope);
      ghost var p := scopes;
      Params(e.params);
      ghost var t1 := scopes;
      Expr(e.lbody);
      StepJoin(p, t1, scopes, cur, ParamNames(e.params), Reads(e.lbody));
      ParentKept(p, scopes, cur, Join(ParamNames(e.params), Reads(e.lbody)), cur);
      NestedStep(a, at, LambdaScope, scopes, Join(ParamNames(e.params), Reads(e.lbody)));
      Pop();
    }

    /** A comprehension: the first iterable outside, everything else in a scope of its own. */
    method Comp(e: Expr)
      requires Valid() && (e.ListComp? || e.SetComp? || e.DictComp? || e.GeneratorExp?)
      modifies this
      ensures Valid() && cur == old(cur) && Step(old(scopes), scopes, cur, Reads(e))
      decreases e, 0, 1
    {
      hide Step, WellFormed;
      var gs := e.gens;
      if |gs| == 0 {
        Elt(e);
        return;
      }
      ghost var t0 := scopes;
      Iterable(gs[0]);
      ghost var a := scopes;
      ghost var at := cur;
      Push(CompScope);
      ghost var p := scopes;
      Inner(gs);
      ghost var t1 := scopes;
      Elt(e);
      ghost var ns := Join(Inside(gs), EltNames(e));
      StepJoin(p, t1, scopes, cur, Inside(gs), EltNames(e));
      ParentKept(p, scopes, cur, ns, cur);
      NestedStep(a, at, CompScope, scopes, ns);
      Pop();
      StepJoin(t0, a, scopes, cur, FirstIter(gs[0]), Closed(CompScope, ns));
    }

    /** The element of a comprehension, or its key and value. */
    method Elt(e: Expr)
      requires Valid() && (e.ListComp? || e.SetComp? || e.DictComp? || e.GeneratorExp?)
      modifies this
      ensures Valid() && cur == old(cur) && Step(old(scopes), scopes, cur, EltNames(e))
      decreases e, 0, 0
    {
      hide Step, WellFormed, Reads;
      if e.DictComp? {
        ghost var t0 := scopes;
        Expr(e.key);
        ghost var t1 := scopes;
        Expr(e.elt);
        StepJoin(t0, t1, scopes, cur, Reads(e.key), Reads(e.elt));
      } else {
        Expr(e.elt);
      }
    }

    method Iterable(g: Comprehension)
      requires Valid()
      modifies this
      ensures Valid() && cur == old(cur) && Step(old(scopes), scopes, cur, FirstIter(g))
      decreases g, 0
    {
      hide Step, WellFormed, Reads;
      Expr(g.iter);
    }

    method Inner(gs: seq<Comprehension>)
      requires Valid() && gs != []
      modifies this
      ensures Valid() && cur == old(cur) && Step(old(scopes), scopes, cur, Inside(gs))
      decreases gs, 1
    {
      hide Step, WellFormed, Bindings.FirstClause, Bindings.Clauses;
      ghost var t0 := scopes;
      FirstClause(gs[0]);
      ghost var t1 := scopes;
      Clauses(gs[1..]);
      StepJoin(t0, t1, scopes, cur, Bindings.FirstClause(gs[0]), Bindings.Clauses(gs[1..]));
    }

    /** A target and its conditions. */
    method FirstClause(g: Comprehension)
      requires Valid()
      modifies this
      ensures Valid() && cur == old(cur) && Step(old(scopes), scopes, cur, Bindings.FirstClause(g))
      decreases g, 1
    {
      hide Step, WellFormed, Reads, Targets;
      ghost var t0 := scopes;
      Target(g.target, {});
      ghost var t1 := scopes;
      Exprs(g.ifs);
      StepJoin(t0, t1, scopes, cur, Targets(g.target), ReadsAll(g.ifs));
    }

    method Clause(g: Comprehension)
      requires Valid()
      modifies this
      ensures Valid() && cur == old(cur) && Step(old(scopes), scopes, cur, Bindings.Clause(g))
      decreases g, 2
    {
      hide Step, WellFormed, Reads, Bindings.FirstClause;
      ghost var t0 := scopes;
      Expr(g.iter);
      ghost var t1 := scopes;
      FirstClause(g);
      StepJoin(t0, t1, scopes, cur, Reads(g.iter), Bindings.FirstClause(g));
    }

    method Clauses(gs: seq<Comprehension>)
      requires Valid()
      modifies this
      ensures Valid() && cur == old(cur) && Step(old(scopes), scopes, cur, Bindings.Clauses(gs))
      decreases gs, 0
    {
      hide Step, WellFormed, Bindings.Clause;
      ghost var t0 := scopes;
      ghost var acc := NOTHING;
      StepNone(scopes, cur);
      JoinLaws(Bindings.Clauses(gs), NOTHING, NOTHING);
      assert gs[0..] == gs;
      for i := 0 to |gs|
        invariant Valid() && cur == old(cur) && Step(t0, scopes, cur, acc)
        invariant Join(acc, Bindings.Clauses(gs[i..])) == Bindings.Clauses(gs)
      {
        ghost var t1 := scopes;
        Clause(gs[i]);
        assert gs[i..][0] == gs[i] && gs[i..][1..] == gs[i + 1..];
        StepJoin(t0, t1, scopes, cur, acc, Bindings.Clause(gs[i]));
        JoinLaws(acc, Bindings.Clause(gs[i]), Bindings.Clauses(gs[i + 1..]));
        acc := Join(acc, Bindings.Clause(gs[i]));
      }
      assert gs[|gs|..] == [];
      JoinLaws(acc, NOTHING, NOTHING);
    }

    /** Binds the names of a target and walks the rest of it. */
    method Target(e: Expr, fs: set<Flag>)
      requires Valid() && Binding(fs)
      modifies this
      ensures Valid() && cur == old(cur) && Step(old(scopes), scopes, cur, Targets(e))
      decreases e, 2
    {
      hide Step, WellFormed, Reads;
      match e
      case Name(id) => BindHere(id, fs);
      case Tuple(es) => TargetList(es, fs);
      case ListExpr(es) => TargetList(es, fs);
      case Starred(x) => Target(x, fs);
      case _ => Expr(e);
    }

    method TargetList(es: seq<Expr>, fs: set<Flag>)
      requires Valid() && Binding(fs)
      modifies this
      ensures Valid() && cur == old(cur) && Step(old(scopes), scopes, cur, TargetsAll(es))
      decreases es
    {
      hide Step, WellFormed, Targets;
      ghost var t0 := scopes;
      ghost var acc := NOTHING;
      StepNone(scopes, cur);
      JoinLaws(TargetsAll(es), NOTHING, NOTHING);
      assert es[0..] == es;
      for i := 0 to |es|
        invariant Valid() && cur == old(cur) && Step(t0, scopes, cur, acc)
        invariant Join(acc, TargetsAll(es[i..])) == TargetsAll(es)
      {
        ghost var t1 := scopes;
        Target(es[i], fs);
        assert es[i..][0] == es[i] && es[i..][1..] == es[i + 1..];
        StepJoin(t0, t1, scopes, cur, acc, Targets(es[i]));
        JoinLaws(acc, Targets(es[i]), TargetsAll(es[i + 1..]));
        acc := Join(acc, Targets(es[i]));
      }
      assert es[|es|..] == [];
      JoinLaws(acc, NOTHING, NOTHING);
    }

    /** The use that an augmented assignment makes of its target. */
    method AugUse(e: Expr)
      requires Valid()
      modifies this
      ensures Valid() && cur == old(cur) && Step(old(scopes), scopes, cur, AugReads(e))
      decreases e, 2
    {
      hide Step, WellFormed;
      StepNone(scopes, cur);
      match e
      case Name(id) => UseHere(id);
      case Tuple(es) => AugUses(es);
      case ListExpr(es) => AugUses(es);
      case Starred(x) => AugUse(x);
      case _ =>
    }

    method AugUses(es: seq<Expr>)
      requires Valid()
      modifies this
      ensures Valid() && cur == old(cur) && Step(old(scopes), scopes, cur, AugReadsAll(es))
      decreases es
    {
      hide Step, WellFormed, AugReads;
      ghost var t0 := scopes;
      ghost var acc := NOTHING;
      StepNone(scopes, cur);
      JoinLaws(AugReadsAll(es), NOTHING, NOTHING);
      assert es[0..] == es;
      for i := 0 to |es|
        invariant Valid() && cur == old(cur) && Step(t0, scopes, cur, acc)
        invariant Join(acc, AugReadsAll(es[i..])) == AugReadsAll(es)
      {
        ghost var t1 := scopes;
        AugUse(es[i]);
        assert es[i..][0] == es[i] && es[i..][1..] == es[i + 1..];
        StepJoin(t0, t1, scopes, cur, acc, AugReads(es[i]));
        JoinLaws(acc, AugReads(es[i]), AugReadsAll(es[i + 1..]));
        acc := Join(acc, AugReads(es[i]));
      }
      assert es[|es|..] == [];
      JoinLaws(acc, NOTHING, NOTHING);
    }

    method Params(a: Arguments)
      requires Valid()
      modifies this
      ensures Valid() && cur == old(cur) && Step(old(scopes), scopes, cur, ParamNames(a))
      decreases a
    {
      hide Step, WellFormed, ParamsIn, ParamOptIn;
      ghost var t0 := scopes;
      ParamList(a.posonly);
      ghost var t1 := scopes;
      ParamList(a.args);
      StepJoin(t0, t1, scopes, cur, ParamsIn(a.posonly), ParamsIn(a.args));
      ghost var t2 := scopes;
      ParamOpt(a.vararg);
      StepJoin(t0, t2, scopes, cur, Join(ParamsIn(a.posonly), ParamsIn(a.args)), ParamOptIn(a.vararg));
      ghost var t3 := scopes;
      ParamList(a.kwonly);
      StepJoin(t0, t3, scopes, cur, Join(Join(ParamsIn(a.posonly), ParamsIn(a.args)), ParamOptIn(a.vararg)),
        ParamsIn(a.kwonly));
      ghost var t4 := scopes;
      ParamOpt(a.kwarg);
      StepJoin(t0, t4, scopes, cur,
        Join(Join(Join(ParamsIn(a.posonly), ParamsIn(a.args)), ParamOptIn(a.vararg)), ParamsIn(a.kwonly)),
        ParamOptIn(a.kwarg));
    }

    method ParamList(ps: seq<Param>)
      requires Valid()
      modifies this
      ensures Valid() && cur == old(cur) && Step(old(scopes), scopes, cur, ParamsIn(ps))
      decreases ps
    {
      hide Step, WellFormed, ParamIn;
      ghost var t0 := scopes;
      ghost var acc := NOTHING;
      StepNone(scopes, cur);
      JoinLaws(ParamsIn(ps), NOTHING, NOTHING);
      assert ps[0..] == ps;
      for i := 0 to |ps|
        invariant Valid() && cur == old(cur) && Step(t0, scopes, cur, acc)
        invariant Join(acc, ParamsIn(ps[i..])) == ParamsIn(ps)
      {
        ghost var t1 := scopes;
        OneParam(ps[i]);
        assert ps[i..][0] == ps[i] && ps[i..][1..] == ps[i + 1..];
        StepJoin(t0, t1, scopes, cur, acc, ParamIn(ps[i]));
        JoinLaws(acc, ParamIn(ps[i]), ParamsIn(ps[i + 1..]));
        acc := Join(acc, ParamIn(ps[i]));
      }
      assert ps[|ps|..] == [];
      JoinLaws(acc, NOTHING, NOTHING);
    }

    method OneParam(p: Param)
      requires Valid()
      modifies this
      ensures Valid() && cur == old(cur) && Step(old(scopes), scopes, cur, ParamIn(p))
      decreases p
    {
      hide Step, WellFormed, ReadsOpt;
      ghost var t0 := scopes;
      BindHere(p.name, {FParam});
      ghost var t1 := scopes;
      Opt(p.ann);
      StepJoin(t0, t1, scopes, cur, Bindings.Bind(p.name), ReadsOpt(p.ann));
    }

    method ParamOpt(o: Option<Param>)
      requires Valid()
      modifies this
      ensures Valid() && cur == old(cur) && Step(old(scopes), scopes, cur, ParamOptIn(o))
      decreases o
    {
      hide Step, WellFormed, ParamIn;
      StepNone(scopes, cur);
      if o.Some? {
        OneParam(o.value);
      }
    }

    // ----- statements -----

    method Stmts(b: seq<Stmt>)
      requires Valid()
      modifies this
      ensures Valid() && cur == old(cur) && Step(old(scopes), scopes, cur, InBody(b))
      decreases b, 1
    {
      hide Step, WellFormed, InStmt;
      ghost var t0 := scopes;
      ghost var acc := NOTHING;
      StepNone(scopes, cur);
      JoinLaws(InBody(b), NOTHING, NOTHING);
      assert b[0..] == b;
      for i := 0 to |b|
        invariant Valid() && cur == old(cur) && Step(t0, scopes, cur, acc)
        invariant Join(acc, InBody(b[i..])) == InBody(b)
      {
        ghost var t1 := scopes;
        Statement(b[i]);
        assert b[i..][0] == b[i] && b[i..][1..] == b[i + 1..];
        StepJoin(t0, t1, scopes, cur, acc, InStmt(b[i]));
        JoinLaws(acc, InStmt(b[i]), InBody(b[i + 1..]));
        acc := Join(acc, InStmt(b[i]));
      }
      assert b[|b|..] == [];
      JoinLaws(acc, NOTHING, NOTHING);
    }

    method Statement(s: Stmt)
      requires Valid()
      modifies this
      ensures Valid() && cur == old(cur) && Step(old(scopes), scopes, cur, InStmt(s))
      decreases s, 1
    {
      hide Step, WellFormed, Reads, Targets, AugReads, ReadsAll, ReadsOpt, TargetsAll, InBody, InHandlers;
      match s {
      case Pass => StepNone(scopes, cur);
      case Break => StepNone(scopes, cur);
      case Continue => StepNone(scopes, cur);
      case ExprStmt(e) => Expr(e);
      case Return(o) => Opt(o);
      case AssignStmt(_, _) => Simply(s);
      case AugStmt(_, _, _) => Simply(s);
      case AnnStmt(_, _, _, _) => Simply(s);
      case Del(es) => TargetList(es, {});
      case Assert(_, _) => Simply(s);
      case Raise(_, _) => Simply(s);
      case Import(names) => Imports(false, names);
      case ImportFrom(_, _, names) => Imports(true, names);
      case Declare(g, ids) => Declarations(if g then FGlobal else FNonlocal, ids);
      case If(c, b, o) =>
        ghost var t0 := scopes;
        Expr(c);
        ghost var t1 := scopes;
        Stmts(b);
        StepJoin(t0, t1, scopes, cur, Reads(c), InBody(b));
        ghost var t2 := scopes;
        Stmts(o);
        StepJoin(t0, t2, scopes, cur, Join(Reads(c), InBody(b)), InBody(o));
      case While(c, b, o) =>
        ghost var t0 := scopes;
        Expr(c);
        ghost var t1 := scopes;
        Stmts(b);
        StepJoin(t0, t1, scopes, cur, Reads(c), InBody(b));
        ghost var t2 := scopes;
        Stmts(o);
        StepJoin(t0, t2, scopes, cur, Join(Reads(c), InBody(b)), InBody(o));
      case For(_, t, i, b, o) =>
        ghost var t0 := scopes;
        Target(t, {});
        ghost var t1 := scopes;
        Expr(i);
        StepJoin(t0, t1, scopes, cur, Targets(t), Reads(i));
        ghost var t2 := scopes;
        Stmts(b);
        StepJoin(t0, t2, scopes, cur, Join(Targets(t), Reads(i)), InBody(b));
        ghost var t3 := scopes;
        Stmts(o);
        StepJoin(t0, t3, scopes, cur, Join(Join(Targets(t), Reads(i)), InBody(b)), InBody(o));
      case Try(star, b, hs, o, f) =>
        if star {
          StepNone(scopes, cur);
        } else {
          ghost var t0 := scopes;
          Stmts(b);
          ghost var t1 := scopes;
          Handlers(hs);
          StepJoin(t0, t1, scopes, cur, InBody(b), InHandlers(hs));
          ghost var t2 := scopes;
          Stmts(o);
          StepJoin(t0, t2, scopes, cur, Join(InBody(b), InHandlers(hs)), InBody(o));
          ghost var t3 := scopes;
          Stmts(f);
          StepJoin(t0, t3, scopes, cur, Join(Join(InBody(b), InHandlers(hs)), InBody(o)), InBody(f));
        }
      case FunctionDef(_, _, _, _, _, _) => Function(s);
      case ClassDef(_, _, _, _, _) => Class(s);
      }
    }

    /** A statement on one line with several expressions. */
    method Simply(s: Stmt)
      requires Valid() && (s.AssignStmt? || s.AugStmt? || s.AnnStmt? || s.Assert? || s.Raise?)
      modifies this
      ensures Valid() && cur == old(cur) && Step(old(scopes), scopes, cur, InStmt(s))
      decreases s, 0
    {
      hide Step, WellFormed, Reads, Targets, AugReads, ReadsAll, ReadsOpt, TargetsAll;
      match s
      case AssignStmt(ts, v) =>
        ghost var t0 := scopes;
        Expr(v);
        ghost var t1 := scopes;
        TargetList(ts, {});
        StepJoin(t0, t1, scopes, cur, Reads(v), TargetsAll(ts));
      case AugStmt(t, _, v) =>
        ghost var t0 := scopes;
        Target(t, {});
        ghost var t1 := scopes;
        AugUse(t);
        StepJoin(t0, t1, scopes, cur, Targets(t), AugReads(t));
        ghost var t2 := scopes;
        Expr(v);
        StepJoin(t0, t2, scopes, cur, Join(Targets(t), AugReads(t)), Reads(v));
      case AnnStmt(t, a, v, _) =>
        ghost var t0 := scopes;
        Target(t, {FAnnotation});
        ghost var t1 := scopes;
        Expr(a);
        StepJoin(t0, t1, scopes, cur, Targets(t), Reads(a));
        ghost var t2 := scopes;
        Opt(v);
        StepJoin(t0, t2, scopes, cur, Join(Targets(t), Reads(a)), ReadsOpt(v));
      case Assert(e, m) =>
        ghost var t0 := scopes;
        Expr(e);
        ghost var t1 := scopes;
        Opt(m);
        StepJoin(t0, t1, scopes, cur, Reads(e), ReadsOpt(m));
      case Raise(e, c) =>
        ghost var t0 := scopes;
        Opt(e);
        ghost var t1 := scopes;
        Opt(c);
        StepJoin(t0, t1, scopes, cur, ReadsOpt(e), ReadsOpt(c));
    }

    /** The names of an import. */
    method Imports(from: bool, names: seq<Alias>)
      requires Valid()
      modifies this`scopes
      ensures Valid() && Step(old(scopes), scopes, cur, InImport(from, names))
    {
      hide Step, WellFormed, ImportedAs;
      ghost var t0 := scopes;
      ghost var acc := NOTHING;
      StepNone(scopes, cur);
      JoinLaws(InImport(from, names), NOTHING, NOTHING);
      assert names[0..] == names;
      for i := 0 to |names|
        invariant Valid() && Step(t0, scopes, cur, acc)
        invariant Join(acc, InImport(from, names[i..])) == InImport(from, names)
      {
        ghost var t1 := scopes;
        ghost var one := if from && names[i].path == ["*"] then NOTHING else Bindings.Bind(ImportedAs(names[i]));
        if from && names[i].path == ["*"] {
          StepNone(scopes, cur);
        } else {
          BindHere(ImportedAs(names[i]), {});
        }
        assert names[i..][0] == names[i] && names[i..][1..] == names[i + 1..];
        StepJoin(t0, t1, scopes, cur, acc, one);
        JoinLaws(acc, one, InImport(from, names[i + 1..]));
        acc := Join(acc, one);
      }
      assert names[|names|..] == [];
      JoinLaws(acc, NOTHING, NOTHING);
    }

    /** The names of a global or nonlocal statement. */
    method Declarations(flag: Flag, ids: seq<string>)
      requires Valid() && (flag == FGlobal || flag == FNonlocal)
      modifies this`scopes
      ensures Valid() && Step(old(scopes), scopes, cur, Declared(flag, ids))
    {
      hide Step, WellFormed;
      ghost var t0 := scopes;
      ghost var acc := NOTHING;
      StepNone(scopes, cur);
      JoinLaws(Declared(flag, ids), NOTHING, NOTHING);
      assert ids[0..] == ids;
      for i := 0 to |ids|
        invariant Valid() && Step(t0, scopes, cur, acc)
        invariant Join(acc, Declared(flag, ids[i..])) == Declared(flag, ids)
      {
        ghost var t1 := scopes;
        ghost var one := Names({}, {Note(flag, ids[i])}, {}, []);
        var clash := Declare(ids[i], flag);
        assert ids[i..][0] == ids[i] && ids[i..][1..] == ids[i + 1..];
        StepJoin(t0, t1, scopes, cur, acc, one);
        JoinLaws(acc, one, Declared(flag, ids[i + 1..]));
        acc := Join(acc, one);
      }
      assert ids[|ids|..] == [];
      JoinLaws(acc, NOTHING, NOTHING);
    }

    method Handlers(hs: seq<Handler>)
      requires Valid()
      modifies this
      ensures Valid() && cur == old(cur) && Step(old(scopes), scopes, cur, InHandlers(hs))
      decreases hs
    {
      hide Step, WellFormed, InHandler;
      ghost var t0 := scopes;
      ghost var acc := NOTHING;
      StepNone(scopes, cur);
      JoinLaws(InHandlers(hs), NOTHING, NOTHING);
      assert hs[0..] == hs;
      for i := 0 to |hs|
        invariant Valid() && cur == old(cur) && Step(t0, scopes, cur, acc)
        invariant Join(acc, InHandlers(hs[i..])) == InHandlers(hs)
      {
        ghost var t1 := scopes;
        OneHandler(hs[i]);
        assert hs[i..][0] == hs[i] && hs[i..][1..] == hs[i + 1..];
        StepJoin(t0, t1, scopes, cur, acc, InHandler(hs[i]));
        JoinLaws(acc, InHandler(hs[i]), InHandlers(hs[i + 1..]));
        acc := Join(acc, InHandler(hs[i]));
      }
      assert hs[|hs|..] == [];
      JoinLaws(acc, NOTHING, NOTHING);
    }

    method OneHandler(h: Handler)
      requires Valid()
      modifies this
      ensures Valid() && cur == old(cur) && Step(old(scopes), scopes, cur, InHandler(h))
      decreases h
    {
      hide Step, WellFormed, ReadsOpt, InBody;
      ghost var t0 := scopes;
      Opt(h.typ);
      ghost var t1 := scopes;
      StepNone(scopes, cur);
      ghost var name := if h.name.Some? then Bindings.Bind(h.name.value) else NOTHING;
      if h.name.Some? {
        BindHere(h.name.value, {});
      }
      StepJoin(t0, t1, scopes, cur, ReadsOpt(h.typ), name);
      ghost var t2 := scopes;
      Stmts(h.body);
      StepJoin(t0, t2, scopes, cur, Join(ReadsOpt(h.typ), name), InBody(h.body));
    }

    /** The name, decorators, defaults and return type here; parameters and body inside. */
    method Function(s: Stmt)
      requires Valid() && s.FunctionDef?
      modifies this
      ensures Valid() && cur == old(cur) && Step(old(scopes), scopes, cur, InStmt(s))
      decreases s, 0
    {
      hide Step, WellFormed, ReadsAll, ReadsOpts, ReadsOpt, ParamNames, InBody;
      var ps := s.params;
      ghost var t0 := scopes;
      BindHere(s.name, {});
      ghost var t1 := scopes;
      Exprs(s.decorators);
      StepJoin(t0, t1, scopes, cur, Bindings.Bind(s.name), ReadsAll(s.decorators));
      ghost var t2 := scopes;
      Exprs(ps.defaults);
      StepJoin(t0, t2, scopes, cur, Join(Bindings.Bind(s.name), ReadsAll(s.decorators)), ReadsAll(ps.defaults));
      ghost var t3 := scopes;
      Opts(ps.kwdefaults);
      StepJoin(t0, t3, scopes, cur, Join(Join(Bindings.Bind(s.name), ReadsAll(s.decorators)), ReadsAll(ps.defaults)),
        ReadsOpts(ps.kwdefaults));
      ghost var t4 := scopes;
      Opt(s.rtype);
      StepJoin(t0, t4, scopes, cur,
        Join(Join(Join(Bindings.Bind(s.name), ReadsAll(s.decorators)), ReadsAll(ps.defaults)),
        ReadsOpts(ps.kwdefaults)), ReadsOpt(s.rtype));
      ghost var outer := Join(Join(Join(Join(Bindings.Bind(s.name), ReadsAll(s.decorators)), ReadsAll(ps.defaults)),
                              ReadsOpts(ps.kwdefaults)), ReadsOpt(s.rtype));
      ghost var a := scopes;
      ghost var at := cur;
      Push(FunctionScope);
      ghost var p := scopes;
      Params(ps);
      ghost var t5 := scopes;
      Stmts(s.body);
      ghost var ns := Join(ParamNames(ps), InBody(s.body));
      StepJoin(p, t5, scopes, cur, ParamNames(ps), InBody(s.body));
      ParentKept(p, scopes, cur, ns, cur);
      NestedStep(a, at, FunctionScope, scopes, ns);
      Pop();
      StepJoin(t0, a, scopes, cur, outer, Closed(FunctionScope, ns));
    }

    method Opts(os: seq<Option<Expr>>)
      requires Valid()
      modifies this
      ensures Valid() && cur == old(cur) && Step(old(scopes), scopes, cur, ReadsOpts(os))
      decreases os
    {
      hide Step, WellFormed, ReadsOpt;
      ghost var t0 := scopes;
      ghost var acc := NOTHING;
      StepNone(scopes, cur);
      JoinLaws(ReadsOpts(os), NOTHING, NOTHING);
      assert os[0..] == os;
      for i := 0 to |os|
        invariant Valid() && cur == old(cur) && Step(t0, scopes, cur, acc)
        invariant Join(acc, ReadsOpts(os[i..])) == ReadsOpts(os)
      {
        ghost var t1 := scopes;
        Opt(os[i]);
        assert os[i..][0] == os[i] && os[i..][1..] == os[i + 1..];
        StepJoin(t0, t1, scopes, cur, acc, ReadsOpt(os[i]));
        JoinLaws(acc, ReadsOpt(os[i]), ReadsOpts(os[i + 1..]));
        acc := Join(acc, ReadsOpt(os[i]));
      }
      assert os[|os|..] == [];
      JoinLaws(acc, NOTHING, NOTHING);
    }

    method Class(s: Stmt)
      requires Valid() && s.ClassDef?
      modifies this
      ensures Valid() && cur == old(cur) && Step(old(scopes), scopes, cur, InStmt(s))
      decreases s, 0
    {
      hide Step, WellFormed, ReadsAll, ReadsKeywords, InBody;
      ghost var t0 := scopes;
      BindHere(s.name, {});
      ghost var t1 := scopes;
      Exprs(s.decorators);
      StepJoin(t0, t1, scopes, cur, Bindings.Bind(s.name), ReadsAll(s.decorators));
      ghost var t2 := scopes;
      Exprs(s.bases);
      StepJoin(t0, t2, scopes, cur, Join(Bindings.Bind(s.name), ReadsAll(s.decorators)), ReadsAll(s.bases));
      ghost var t3 := scopes;
      Keywords(s.keywords);
      StepJoin(t0, t3, scopes, cur, Join(Join(Bindings.Bind(s.name), ReadsAll(s.decorators)), ReadsAll(s.bases)),
        ReadsKeywords(s.keywords));
      ghost var outer := Join(Join(Join(Bindings.Bind(s.name), ReadsAll(s.decorators)), ReadsAll(s.bases)),
                              ReadsKeywords(s.keywords));
      ghost var a := scopes;
      ghost var at := cur;
      Push(ClassScope);
      ghost var p := scopes;
      Stmts(s.body);
      ParentKept(p, scopes, cur, InBody(s.body), cur);
      NestedStep(a, at, ClassScope, scopes, InBody(s.body));
      Pop();
      StepJoin(t0, a, scopes, cur, outer, Closed(ClassScope, InBody(s.body)));
    }

    // ----- the resolving pass -----

    /** Free and Cell for scope i and everything below it.  The names of a scope are taken in any
        order; t is the tree before the pass and p what has been visited. */
    method Resolve(i: nat, ghost t: Tree, ghost p: iset<(nat, string)>)
      requires WellFormed(t) && Marked(t, p, scopes) && i < |t|
      modifies this`scopes
      ensures Marked(t, p + Below(t, i), scopes)
      decreases |t| - i
    {
      hide WellFormed, Marked, Below, IsFree;
      MarkedParts(t, p, scopes, i);
      var kids := scopes[i].children;
      ghost var q := p;
      for k := 0 to |kids|
        invariant Marked(t, q, scopes) && q == p + BelowKids(t, i, k)
      {
        ChildLater(t, i, k);
        Resolve(kids[k], t, q);
        q := q + Below(t, kids[k]);
        KidsMore(t, i, k);
      }
      MarkedParts(t, q, scopes, i);
      if scopes[i].kind == ModuleScope || scopes[i].kind == ClassScope {
        NothingFree(t, i, q, scopes);
        BelowSplit(t, i, p);
        return;
      }
      var names := scopes[i].symbols.Keys;
      ghost var done: iset<(nat, string)> := iset{};
      assert q + done == q;
      while names != {}
        invariant Marked(t, q + done, scopes)
        invariant done == iset n | n in t[i].symbols && n !in names :: (i, n)
        invariant names <= t[i].symbols.Keys
        decreases |names|
      {
        var n :| n in names;
        MarkName(i, n, t, q + done);
        names := names - {n};
        assert q + done + iset{(i, n)} == q + (done + iset{(i, n)});
        done := done + iset{(i, n)};
      }
      BelowSplit(t, i, p);
      assert q + done == p + Below(t, i);
    }

    /** One name of one scope. */
    method MarkName(i: nat, n: string, ghost t: Tree, ghost p: iset<(nat, string)>)
      requires WellFormed(t) && Marked(t, p, scopes) && i < |t| && n in t[i].symbols && FunctionLike(t[i])
      modifies this`scopes
      ensures Marked(t, p + iset{(i, n)}, scopes)
    {
      hide WellFormed, Marked;
      MarkedParts(t, p, scopes, i);
      MarkedFlags(t, p, scopes, i, n);
      MarkedWellFormed(t, p, scopes);
      Upwards(t, i);
      MarkedOwner(t, p, scopes, t[i].parent, n);
      var fs := scopes[i].symbols[n];
      if FUsed !in fs || FBound in fs || FGlobal in fs || FNonlocal in fs {
        NotFreeStep(t, p, scopes, i, n);
        return;
      }
      var owner := LookupCapturable(scopes[i].parent, n);
      if owner.None? {
        NotFreeStep(t, p, scopes, i, n);
        return;
      }
      FreeStep(t, p, scopes, i, n, owner.value);
      scopes := With(With(scopes, i, n, {FFree}), owner.value, n, {FCell});
    }

    /** The scope that a nested function captures n from, searching from `start` upwards. */
    method LookupCapturable(start: Option<nat>, n: string) returns (owner: Option<nat>)
      requires WellFormed(scopes) && (start.Some? ==> start.value < |scopes|)
      ensures owner == Owner(scopes, start, n)
    {
      var at: Option<nat> := start;
      while at.Some?
        invariant at.Some? ==> at.value < |scopes|
        invariant Owner(scopes, at, n) == Owner(scopes, start, n)
        decreases if at.Some? then at.value + 1 else 0
      {
        var s := scopes[at.value];
        if s.kind != ClassScope && n in s.symbols && FBound in s.symbols[n] {
          return if s.kind == ModuleScope then None else at;
        }
        at := s.parent;
      }
      owner := None;
    }

    /** Resolve: where a name read in scope `from` is found, and whether that is across a
        function-like scope. */
    method ResolveName(from: nat, n: string) returns (r: Option<(bool, nat)>)
      requires WellFormed(scopes) && from < |scopes|
      ensures r == Lookup(scopes, from, Some(from), false, n)
    {
      var crossed := false;
      var at: Option<nat> := Some(from);
      while at.Some?
        invariant at.Some? ==> at.value < |scopes|
        invariant Lookup(scopes, from, at, crossed, n) == Lookup(scopes, from, Some(from), false, n)
        decreases if at.Some? then at.value + 1 else 0
      {
        var s := scopes[at.value];
        if at.value == from || s.kind != ClassScope {
          if n in s.symbols && (FBound in s.symbols[n] || FGlobal in s.symbols[n] || FNonlocal in s.symbols[n]) {
            return Some((crossed, at.value));
          }
          if s.kind == FunctionScope || s.kind == LambdaScope || s.kind == CompScope {
            crossed := true;
          }
        }
        at := s.parent;
      }
      r := None;
    }
  }

  // ----- how the marks grow -----

  /** The names below the first k children of scope i. */
  ghost function BelowKids(t: Tree, i: nat, k: nat): iset<(nat, string)>
    requires WellFormed(t) && i < |t| && k <= |t[i].children|
  {
    iset m: nat, x: (nat, string) | m < k && InKid(t, i, m, x) :: x
  }

  ghost predicate InKid(t: Tree, i: nat, m: nat, x: (nat, string))
    requires WellFormed(t) && i < |t|
  {
    m < |t[i].children| && x in Below(t, t[i].children[m])
  }

  lemma KidsMore(t: Tree, i: nat, k: nat)
    requires WellFormed(t) && i < |t| && k < |t[i].children|
    ensures BelowKids(t, i, k + 1) == BelowKids(t, i, k) + Below(t, t[i].children[k])
  {
    hide WellFormed, Below;
    forall x | x in Below(t, t[i].children[k])
      ensures x in BelowKids(t, i, k + 1)
    {
      assert InKid(t, i, k, x);
    }
    forall x | x in BelowKids(t, i, k + 1)
      ensures x in BelowKids(t, i, k) + Below(t, t[i].children[k])
    {
      var m: nat :| m < k + 1 && InKid(t, i, m, x);
      assert m < k ==> x in BelowKids(t, i, k);
    }
  }

  lemma MarkedParts(t: Tree, p: iset<(nat, string)>, now: Tree, i: nat)
    requires WellFormed(t) && Marked(t, p, now) && i < |t|
    ensures |now| == |t| && now[i].kind == t[i].kind && now[i].parent == t[i].parent && now[i].children == t[i].children
    ensures now[i].symbols.Keys == t[i].symbols.Keys
    ensures p + BelowKids(t, i, 0) == p
  {
    hide WellFormed, Below, Marks;
    assert MarkedScope(t, p, now[i], i);
  }

  lemma MarkedFlags(t: Tree, p: iset<(nat, string)>, now: Tree, i: nat, n: string)
    requires WellFormed(t) && Marked(t, p, now) && i < |t| && n in t[i].symbols
    ensures n in now[i].symbols
    ensures forall f | f != FFree && f != FCell :: f in now[i].symbols[n] <==> f in t[i].symbols[n]
  {
    hide WellFormed, IsFree;
    assert MarkedScope(t, p, now[i], i);
    assert now[i].symbols[n] == t[i].symbols[n] + Marks(t, p, i, n);
  }

  /** Everything below scope i: below its children, and its own names. */
  lemma BelowSplit(t: Tree, i: nat, p: iset<(nat, string)>)
    requires WellFormed(t) && i < |t|
    ensures p + Below(t, i) ==
            p + BelowKids(t, i, |t[i].children|) + (iset n | n in t[i].symbols :: (i, n))
  {
    forall x | x in Below(t, i)
      ensures x in BelowKids(t, i, |t[i].children|) + (iset n | n in t[i].symbols :: (i, n))
    {
      if x.0 != i {
        UnderChild(t, i, x.0);
        var k :| 0 <= k < |t[i].children| && Under(t, t[i].children[k], x.0);
        assert x in Below(t, t[i].children[k]);
        assert InKid(t, i, k, x);
      }
    }
    forall x | x in BelowKids(t, i, |t[i].children|)
      ensures x in Below(t, i)
    {
      var m: nat :| m < |t[i].children| && InKid(t, i, m, x);
      ChildUnder(t, i, m, x.0);
    }
  }

  /** Visiting names that are not free marks nothing. */
  lemma SameMarks(t: Tree, p: iset<(nat, string)>, q: iset<(nat, string)>, now: Tree)
    requires WellFormed(t) && Marked(t, p, now)
    requires forall j: nat, n: string | j < |t| && n in t[j].symbols :: Marks(t, q, j, n) == Marks(t, p, j, n)
    ensures Marked(t, q, now)
  {
    hide WellFormed, Marks;
    forall j | 0 <= j < |t|
      ensures MarkedScope(t, q, now[j], j)
    {
      assert MarkedScope(t, p, now[j], j);
    }
  }

  lemma NothingFree(t: Tree, i: nat, p: iset<(nat, string)>, now: Tree)
    requires WellFormed(t) && i < |t| && !FunctionLike(t[i]) && Marked(t, p, now)
    ensures Marked(t, p + (iset n | n in t[i].symbols :: (i, n)), now)
  {
    hide WellFormed, Marked;
    SameMarks(t, p, p + (iset n | n in t[i].symbols :: (i, n)), now);
  }

  lemma NotFreeStep(t: Tree, p: iset<(nat, string)>, now: Tree, i: nat, n: string)
    requires WellFormed(t) && i < |t| && !IsFree(t, i, n) && Marked(t, p, now)
    ensures Marked(t, p + iset{(i, n)}, now)
  {
    hide WellFormed, IsFree, Marked, Owner;
    SameMarks(t, p, p + iset{(i, n)}, now);
  }

  lemma FreeStep(t: Tree, p: iset<(nat, string)>, now: Tree, i: nat, n: string, o: nat)
    requires WellFormed(t) && i < |t| && IsFree(t, i, n) && Owner(t, t[i].parent, n) == Some(o) && Marked(t, p, now)
    ensures n in t[i].symbols && n in t[o].symbols && i != o
    ensures Marked(t, p + iset{(i, n)}, With(With(now, i, n, {FFree}), o, n, {FCell}))
  {
    hide WellFormed, Owner, With, Marks;
    var q := p + iset{(i, n)};
    assert Has(t[o], n, FBound) && Has(t[i], n, FUsed);
    hide IsFree;
    MarkedParts(t, p, now, i);
    MarkedParts(t, p, now, o);
    assert n in now[i].symbols.Keys && n in now[o].symbols.Keys;
    TwoWith(now, i, n, o);
    var r := With(With(now, i, n, {FFree}), o, n, {FCell});
    forall j | 0 <= j < |t|
      ensures MarkedScope(t, q, r[j], j)
    {
      FreeStepAt(t, p, now[j], i, n, o, j, r[j]);
    }
  }

  lemma FreeStepAt(t: Tree, p: iset<(nat, string)>, s: Scope, i: nat, n: string, o: nat, j: nat, r: Scope)
    requires WellFormed(t) && i < |t| && IsFree(t, i, n) && Owner(t, t[i].parent, n) == Some(o) && j < |t|
    requires MarkedScope(t, p, s, j)
    requires r.kind == s.kind && r.parent == s.parent && r.children == s.children && r.symbols.Keys == s.symbols.Keys
    requires forall m | m in s.symbols ::
      r.symbols[m] == s.symbols[m] + (if j == i && m == n then {FFree} else {}) 
        + (if j == o && m == n then {FCell} else {})
    ensures MarkedScope(t, p + iset{(i, n)}, r, j)
  {
    hide WellFormed, IsFree, Owner, Marks;
    forall m | m in t[j].symbols
      ensures r.symbols[m] == t[j].symbols[m] + Marks(t, p + iset{(i, n)}, j, m)
    {
      assert m in s.symbols.Keys;
      MarksStep(t, p, i, n, o, j, m);
    }
  }

  lemma TwoWith(t: Tree, i: nat, n: string, o: nat)
    requires i < |t| && o < |t| && i != o && n in t[i].symbols && n in t[o].symbols
    ensures var r := With(With(t, i, n, {FFree}), o, n, {FCell});
            && |r| == |t|
            && (forall j | 0 <= j < |t| ::
                  r[j].kind == t[j].kind && r[j].parent == t[j].parent && r[j].children == t[j].children
                  && r[j].symbols.Keys == t[j].symbols.Keys)
            && (forall j, m | 0 <= j < |t| && m in t[j].symbols ::
                  r[j].symbols[m] == t[j].symbols[m] + (if j == i && m == n then {FFree} else {})
                                                     + (if j == o && m == n then {FCell} else {}))
  {
    var r := With(With(t, i, n, {FFree}), o, n, {FCell});
    assert r[i].symbols.Keys == t[i].symbols.Keys;
    assert r[o].symbols.Keys == t[o].symbols.Keys;
  }

  lemma MarksStep(t: Tree, p: iset<(nat, string)>, i: nat, n: string, o: nat, j: nat, m: string)
    requires WellFormed(t) && i < |t| && j < |t| && IsFree(t, i, n) && Owner(t, t[i].parent, n) == Some(o)
    ensures Marks(t, p + iset{(i, n)}, j, m) ==
            Marks(t, p, j, m) + (if j == i && m == n then {FFree} else {}) + (if j == o && m == n then {FCell} else {})
  {
    hide IsFree, Owner;
    var q := p + iset{(i, n)};
    if CellBy(t, q, j, m) && !CellBy(t, p, j, m) {
      var k :| 0 <= k < |t| && (k, m) in q && IsFree(t, k, m) && Owner(t, t[k].parent, m) == Some(j);
      assert k == i && m == n;
    }
    if j == o && m == n {
      assert (i, n) in q;
      assert CellBy(t, q, j, m);
    }
  }

  /** What the scope of a comprehension sees of its element. */
  function EltNames(e: Expr): Names
    requires e.ListComp? || e.SetComp? || e.DictComp? || e.GeneratorExp?
  {
    if e.DictComp? then Join(Reads(e.key), Reads(e.elt)) else Reads(e.elt)
  }

  lemma ParentKept(a: Tree, b: Tree, at: nat, ns: Names, i: nat)
    requires WellFormed(a) && at < |a| && Step(a, b, at, ns) && i < |a|
    ensures i < |b| && b[i].parent == a[i].parent
  {
    assert Grown(a[i], b[i]);
  }

  // ----- the whole table -----

  lemma {:induction false} MatchesMarked(t: Tree, p: iset<(nat, string)>, now: Tree, k: nat, n: Nest)
    requires WellFormed(t) && WellFormed(now) && Marked(t, p, now) && Matches(t, k, n)
    ensures Matches(now, k, n)
    decreases n
  {
    hide WellFormed, Marked, Bound, Noted;
    MarkedParts(t, p, now, k);
    SameNames(t, p, now, k);
    forall m | 0 <= m < |n.nested|
      ensures Matches(now, now[k].children[m], n.nested[m])
    {
      MatchesMarked(t, p, now, t[k].children[m], n.nested[m]);
    }
  }

  lemma SameNames(t: Tree, p: iset<(nat, string)>, now: Tree, k: nat)
    requires WellFormed(t) && Marked(t, p, now) && k < |t|
    ensures Bound(now[k]) == Bound(t[k]) && Noted(now[k]) == Noted(t[k])
  {
    hide WellFormed, Marked;
    MarkedParts(t, p, now, k);
    forall n | n in t[k].symbols
      ensures n in now[k].symbols
      ensures FBound in now[k].symbols[n] <==> FBound in t[k].symbols[n]
      ensures forall f | Notable(f) :: f in now[k].symbols[n] <==> f in t[k].symbols[n]
    {
      MarkedFlags(t, p, now, k, n);
    }
  }

  /** What is free or cell does not depend on the marks. */
  lemma MarksAreStable(t: Tree, p: iset<(nat, string)>, now: Tree)
    requires WellFormed(t) && WellFormed(now) && Marked(t, p, now)
    ensures forall i, n | 0 <= i < |t| :: IsFree(now, i, n) == IsFree(t, i, n)
    ensures forall i, n | 0 <= i < |t| :: IsCell(now, i, n) == IsCell(t, i, n)
    ensures |now| == |t|
  {
    hide Marked, Owner;
    MarkedParts(t, p, now, 0);
    forall i, n | 0 <= i < |t|
      ensures IsFree(now, i, n) == IsFree(t, i, n) && Owner(now, now[i].parent, n) == Owner(t, t[i].parent, n)
    {
      MarkedParts(t, p, now, i);
      Upwards(t, i);
      MarkedOwner(t, p, now, t[i].parent, n);
      if n in t[i].symbols {
        MarkedFlags(t, p, now, i, n);
      } else {
        assert n !in now[i].symbols.Keys;
      }
    }
  }

  /** Build: the symbol table of a module.  The module scope holds the names that the body binds
      and uses there, every nested scope those of its own piece of syntax.  A name is Free where a
      function-like scope reads it and neither binds it nor declares it global or nonlocal, if one
      around it binds it; the nearest such scope, and no other, has the Cell. */
  method Build(b: seq<Stmt>) returns (t: Tree)
    ensures WellFormed(t)
    ensures Matches(t, 0, Nest(ModuleScope, InBody(b).bound + InBody(b).walrus, InBody(b).noted, InBody(b).nested))
    ensures forall i, n | 0 <= i < |t| ::
      Has(t[i], n, FFree) <==>
        && FunctionLike(t[i]) && Has(t[i], n, FUsed)
        && !Has(t[i], n, FBound) && !Has(t[i], n, FGlobal) && !Has(t[i], n, FNonlocal)
        && exists o | 0 <= o < |t| :: Captures(t, i, o, n)
    ensures forall i, n | 0 <= i < |t| ::
      Has(t[i], n, FCell) <==> exists j | 0 <= j < |t| :: Has(t[j], n, FFree) && Captures(t, j, i, n)
  {
    hide WellFormed, Marked, Below, IsFree, IsCell, Owner, InBody, Captures, FunctionLike;
    var bd := new Builder();
    ghost var t0 := bd.scopes;
    assert Kids(t0, 0);
    bd.Stmts(b);
    ghost var t1 := bd.scopes;
    RootHolds(t0, t1, InBody(b));
    NoMarks(t1);
    bd.Resolve(0, t1, iset{});
    t := bd.scopes;
    assert iset{} + Below(t1, 0) == Below(t1, 0);
    MarkedWellFormed(t1, Below(t1, 0), t);
    MarkedAll(t1, t);
    MarksAreStable(t1, Below(t1, 0), t);
    MatchesMarked(t1, Below(t1, 0), t, 0,
      Nest(ModuleScope, InBody(b).bound + InBody(b).walrus, InBody(b).noted, InBody(b).nested));
    MarksInFlags(t);
  }

  lemma MarksInFlags(t: Tree)
    requires WellFormed(t)
    requires forall i, n | 0 <= i < |t| :: Has(t[i], n, FFree) <==> IsFree(t, i, n)
    requires forall i, n | 0 <= i < |t| :: Has(t[i], n, FCell) <==> IsCell(t, i, n)
    ensures forall i, n | 0 <= i < |t| ::
      Has(t[i], n, FFree) <==>
        && FunctionLike(t[i]) && Has(t[i], n, FUsed)
        && !Has(t[i], n, FBound) && !Has(t[i], n, FGlobal) && !Has(t[i], n, FNonlocal)
        && exists o | 0 <= o < |t| :: Captures(t, i, o, n)
    ensures forall i, n | 0 <= i < |t| ::
      Has(t[i], n, FCell) <==> exists j | 0 <= j < |t| :: Has(t[j], n, FFree) && Captures(t, j, i, n)
  {
    hide WellFormed, IsFree, IsCell, Captures, FunctionLike;
    forall i, n | 0 <= i < |t|
      ensures Has(t[i], n, FFree) <==>
        && FunctionLike(t[i]) && Has(t[i], n, FUsed)
        && !Has(t[i], n, FBound) && !Has(t[i], n, FGlobal) && !Has(t[i], n, FNonlocal)
        && exists o | 0 <= o < |t| :: Captures(t, i, o, n)
    {
      FreeExactly(t, i, n);
    }
    forall i, n | 0 <= i < |t|
      ensures Has(t[i], n, FCell) <==> exists j | 0 <= j < |t| :: Has(t[j], n, FFree) && Captures(t, j, i, n)
    {
      CellExactly(t, i, n);
    }
  }

  /** After a walk in a fresh module scope. */
  lemma RootHolds(t0: Tree, t: Tree, ns: Names)
    requires t0 == [Scope(ModuleScope, None, [], map[])] && WellFormed(t0) && Step(t0, t, 0, ns)
    ensures Matches(t, 0, Nest(ModuleScope, ns.bound + ns.walrus, ns.noted, ns.nested))
    ensures Unmarked(t)
  {
    hide WellFormed;
    assert Grown(t0[0], t[0]);
    assert Bound(t[0]) == Bound(t0[0]) + Gained(t0, 0, 0, ns);
    assert Noted(t[0]) == Noted(t0[0]) + GainedNotes(0, 0, ns);
    forall m | 0 <= m < |ns.nested|
      ensures Matches(t, t[0].children[m], ns.nested[m])
    {
      assert Matches(t, t[0].children[|t0[0].children| + m], ns.nested[m]);
    }
    forall i, n | 0 <= i < |t|
      ensures !Has(t[i], n, FFree) && !Has(t[i], n, FCell)
    {
      if i > 0 {
        assert Clear(t[i]);
      }
    }
  }

  lemma NoMarks(t: Tree)
    requires WellFormed(t)
    ensures Marked(t, iset{}, t)
  {
    hide WellFormed, IsFree;
    forall i | 0 <= i < |t|
      ensures MarkedScope(t, iset{}, t[i], i)
    {
    }
  }
}
