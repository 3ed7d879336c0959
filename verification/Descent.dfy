/** How the ladder falls through: a tree read at a deep level is read, unchanged, at every
    shallower level at which neither the next token nor the first one belongs. */
module Descent {
  import opened Tokens
  import opened Ast
  import opened Unparse
  import opened Grammar
  import opened Reading

  /** The deepest ladder level at which the front of k can continue an expression. */
  function Binds(k: Toks): nat {
    if k.End? then 0
    else match k.hd
      case Walrus => 1
      case Nm(KwIf) => 2
      case Nm(KwOr) => 3
      case Nm(KwAnd) => 4
      case OpLt | OpGt | OpLe | OpGe | OpEq | OpNe => 6
      case Nm(KwIn) | Nm(KwIs) | Nm(KwNot) => 6
      case Pipe => 7
      case Caret => 8
      case Amp => 9
      case LSh | RSh => 10
      case Plus | Minus => 11
      case Star | Slash | DSlash | Percent | At => 12
      case DStar => 14
      case Dot | LPar | LBrk => 15
      case StrLit(_, _) => 17
      case _ => 0
  }

  predicate Loops(L: int) {
    7 <= L <= 12 || L == 15
  }

  /** k cannot extend a tree read at level L, except through L's own left-leaning loop. */
  predicate Fits(L: int, k: Toks) {
    Binds(k) < L || (Binds(k) == L && Loops(L))
  }

  /** What level L makes of a result of the level below it. */
  function Cont(L: int, r: Res<Expr>): Res<Expr> {
    if r.Err? then Err
    else if 7 <= L <= 12 then BinTail(L, r.v, r.rest)
    else if L == 15 then TrailerTail(r.v, r.rest)
    else r
  }

  function Of<T>(o: Option<T>, k: Toks): Res<T> {
    match o case None => Err case Some(x) => Ok(x, k)
  }

  lemma Stops(L: int, e: Expr, k: Toks)
    requires Binds(k) < L
    ensures Cont(L, Ok(e, k)) == Ok(e, k)
  {
  }

  /** Tokens that can begin an expression. */
  predicate Starter(t: Tok) {
    match t
    case Nm(w) => w.Ident? || w.KwNot? || w.KwLambda? || w.KwAwait? || w.KwNone? || w.KwTrue? || w.KwFalse?
    case IntLit(_) | FloatLit(_) | StrLit(_, _) | Dots | LPar | LBrk | LBrc | Plus | Minus | Tilde => true
    case _ => false
  }

  predicate NameThen(t: Toks, x: Tok) {
    AtPlainName(t) && At0(t.tl, x)
  }

  /** No prefix form of a level shallower than n begins at t. */
  predicate NoPrefix(n: int, t: Toks) {
    && t.Cons?
    && !IsKw(t, KwYield)
    && (n >= 2 ==> !IsKw(t, KwLambda))
    && (n >= 6 ==> !IsKw(t, KwNot))
    && (n >= 14 ==> UnaryAt(t.hd).None? && !IsKw(t, KwAwait))
  }

  predicate HeadOk(n: int, t: Toks) {
    t.Cons? && Starter(t.hd) && NoPrefix(n, t)
  }

  lemma Step(n: int, t: Toks, r: Option<Expr>, k: Toks)
    requires 2 <= n <= 16
    requires NoPrefix(n, t)
    requires ParseAt(n, t) == Cont(n, Of(r, k))
    requires Binds(k) < n
    requires Fits(n - 1, k)
    requires n == 2 ==> !NameThen(t, Walrus)
    ensures ParseAt(n - 1, t) == Cont(n - 1, Of(r, k))
  {
    if r.Some? {
      Stops(n, r.value, k);
    }
    assert ParseAt(n, t) == Of(r, k);
    hide ParseAt, Cont, NoPrefix, NameThen;
    if n >= 13 {
      StepOperand(n, t, r, k);
    } else if n >= 8 {
      StepBinary(n, t, r, k);
    } else if n == 7 {
      StepCompare(t, r, k);
    } else {
      StepTest(n, t, r, k);
    }
  }

  lemma StepOperand(n: int, t: Toks, r: Option<Expr>, k: Toks)
    requires 13 <= n <= 16
    requires NoPrefix(n, t)
    requires ParseAt(n, t) == Of(r, k)
    requires Binds(k) < n && Fits(n - 1, k)
    ensures ParseAt(n - 1, t) == Cont(n - 1, Of(r, k))
  {
    if n == 16 {
      hide TrailerTail, ParseAtom;
    } else if n == 15 {
      hide ParseTrailer, ParseUnary;
    } else if n == 14 {
      hide ParsePower;
    } else {
      hide ParseUnary;
      assert ParseBin(13, t) == ParseUnary(t);
    }
  }

  lemma StepBinary(n: int, t: Toks, r: Option<Expr>, k: Toks)
    requires 8 <= n <= 12
    requires ParseAt(n, t) == Of(r, k)
    ensures ParseAt(n - 1, t) == Cont(n - 1, Of(r, k))
  {
    hide BinTail, ParseUnary;
    assert ParseBin(n, t) == Of(r, k);
  }

  lemma StepCompare(t: Toks, r: Option<Expr>, k: Toks)
    requires ParseAt(7, t) == Of(r, k) && Binds(k) < 6
    ensures ParseAt(6, t) == Cont(6, Of(r, k))
  {
    hide ParseBin;
    assert CmpAt(k).None?;
    assert CompareTail(k) == Ok([], k);
  }

  lemma StepTest(n: int, t: Toks, r: Option<Expr>, k: Toks)
    requires 2 <= n <= 6
    requires NoPrefix(n, t)
    requires ParseAt(n, t) == Of(r, k)
    requires Binds(k) < n && Fits(n - 1, k)
    requires n == 2 ==> !NameThen(t, Walrus)
    ensures ParseAt(n - 1, t) == Cont(n - 1, Of(r, k))
  {
    if n == 6 {
      hide ParseCompare;
    } else if n == 5 {
      hide ParseNot;
    } else if n == 4 {
      hide ParseAnd;
    } else if n == 3 {
      hide ParseOr, ParseExpr;
    } else {
      hide ParseTernary;
    }
  }

  lemma Unbound(n: int, L: int, t: Toks, k: Toks)
    requires L < n && NoPrefix(n, t) && Fits(L, k)
    ensures NoPrefix(n - 1, t) && Binds(k) < n && Fits(n - 1, k)
  {
  }

  /** A tree read at level n is read at every level L <= n. */
  lemma Down(n: int, L: int, t: Toks, r: Option<Expr>, k: Toks)
    requires 1 <= L <= n <= 16
    requires NoPrefix(n, t)
    requires ParseAt(n, t) == Cont(n, Of(r, k))
    requires Fits(L, k)
    requires L == 1 < n ==> !NameThen(t, Walrus)
    ensures ParseAt(L, t) == Cont(L, Of(r, k))
    decreases n
  {
    if L < n {
      Unbound(n, L, t, k);
      Step(n, t, r, k);
      hide ParseAt, Cont, NoPrefix, NameThen;
      Down(n - 1, L, t, r, k);
    }
  }

  // ----- the first token of printed text -----

  /** The ladder level whose method builds e when it is printed without parentheses. */
  function Native(e: Expr): nat {
    match e
    case BoolOp(op, _) => BoolPrec(op)
    case NamedExpr(_, _) => L_EXPR
    case BinOp(op, l, _) => if op == Pow && l.Await? then L_UNARY else OpPrec(op)
    case UnaryOp(op, _) => if op == Not then L_NOT else L_UNARY
    case Lambda(_, _) => L_EXPR
    case IfExp(_, _, _) => L_EXPR
    case Await(_) => L_UNARY
    case Compare(_, _) => L_CMP
    case Call(_, _, _) | Attribute(_, _) | Subscript(_, _) => L_TRAILER
    case Set(es) => if es == [] then L_TRAILER else L_ATOM
    case _ => L_ATOM
  }

  /** A tuple with elements. */
  predicate Packed(e: Expr) {
    match e case Tuple(es) => es != [] case _ => false
  }

  lemma NamePrint(e: Expr, p: int, k: Toks)
    requires e.Name? && p <= P_ATOM
    ensures Print(e, p, k) == Cons(Nm(Ident(e.id)), k)
  {
    assert Bare(e, k) == Cons(Nm(Ident(e.id)), k);
  }

  lemma {:induction false} HeadBare(e: Expr, k: Toks)
    requires Wf(e)
    requires !Packed(e)
    ensures HeadOk(Native(e), Bare(e, k))
    ensures Native(e) >= 2 && !At0(k, Walrus) ==> !NameThen(Bare(e, k), Walrus)
    ensures !At0(k, Assign) ==> !NameThen(Bare(e, k), Assign)
    decreases e, 1
  {
    if e.BoolOp? || e.BinOp? || e.IfExp? || e.Compare? {
      HeadOperator(e, k);
    } else if e.Call? || e.Attribute? || e.Subscript? {
      HeadTrailer(e, k);
    } else if e.NamedExpr? {
      NamePrint(e.target, P_ATOM, Cons(Walrus, Print(e.nvalue, P_NAMED + 1, k)));
    }
  }

  /** An operand printed at precedence p can head any tree built at a level up to p. */
  lemma HeadWeaken(x: Expr, p: int, n: int, t: Toks)
    requires HeadOk(if Parens(x, p) then 16 else Native(x), t)
    requires n <= p <= 15 && n <= 14 && (n == 13 || n == 14 ==> p == 15 && (n == 13 <==> x.Await?))
    requires x.Tuple? && x.telts != [] ==> p > 0
    requires n == 1 || p != 2
    ensures HeadOk(n, t)
    ensures n >= 2 ==> Parens(x, p) || Native(x) >= 2
  {
    hide Starter;
    match x
    case BoolOp(_, _) => assert Parens(x, p) || Native(x) >= n;
    case BinOp(_, _, _) => assert Parens(x, p) || Native(x) >= n;
    case UnaryOp(_, _) => assert Parens(x, p) || Native(x) >= n;
    case NamedExpr(_, _) => assert Parens(x, p) || n <= 1;
    case Await(_) => assert n <= 13;
    case _ => assert Parens(x, p) || Native(x) >= n;
  }

  lemma {:induction false} HeadOperator(e: Expr, k: Toks)
    requires Wf(e)
    requires e.BoolOp? || e.BinOp? || e.IfExp? || e.Compare?
    ensures HeadOk(Native(e), Bare(e, k))
    ensures Native(e) >= 2 && !At0(k, Walrus) ==> !NameThen(Bare(e, k), Walrus)
    ensures !At0(k, Assign) ==> !NameThen(Bare(e, k), Assign)
    decreases e, 0
  {
    hide Print, Starter, NameThen, HeadOk, Parens;
    match e {
    case BoolOp(op, vs) =>
      var p := BoolPrec(op) + 1;
      var k' := PrintTail(BoolSym(op), vs[1..], p, k);
      assert Bare(e, k) == Print(vs[0], p, k');
      HeadPrint(vs[0], p, k');
      HeadWeaken(vs[0], p, p - 1, Print(vs[0], p, k'));
      JoinHead(BoolSym(op), vs[1..], p, k);
    case BinOp(op, l, r) =>
      var p := if op == Pow then P_AWAIT else OpPrec(op);
      var k' := Cons(OpSym(op), Print(r, if op == Pow then P_POWER else p + 1, k));
      assert Bare(e, k) == Print(l, p, k');
      HeadPrint(l, p, k');
      HeadWeaken(l, p, Native(e), Print(l, p, k'));
    case IfExp(t, b, o) =>
      var k' := Cons(Nm(KwIf), Print(t, P_TEST + 1, Cons(Nm(KwElse), Print(o, P_TEST, k))));
      assert Bare(e, k) == Print(b, P_TEST + 1, k');
      HeadPrint(b, P_TEST + 1, k');
      HeadWeaken(b, P_TEST + 1, 1, Print(b, P_TEST + 1, k'));
    case Compare(l, cs) =>
      var k' := PrintComparisons(cs, k);
      assert Bare(e, k) == Print(l, P_CMP + 1, k');
      HeadPrint(l, P_CMP + 1, k');
      HeadWeaken(l, P_CMP + 1, P_CMP, Print(l, P_CMP + 1, k'));
      ComparisonHead(cs, k);
    }
  }

  lemma JoinHead(sep: Tok, es: seq<Expr>, p: int, k: Toks)
    requires es != []
    ensures At0(PrintTail(sep, es, p, k), sep)
  {
    hide Print;
  }

  lemma ComparisonHead(cs: seq<Comparison>, k: Toks)
    requires cs != []
    ensures !At0(PrintComparisons(cs, k), Walrus) && !At0(PrintComparisons(cs, k), Assign)
  {
    hide Print;
    assert PrintComparisons(cs, k) == PrintComparison(cs[0], PrintComparisons(cs[1..], k));
  }

  lemma {:induction false} HeadTrailer(e: Expr, k: Toks)
    requires Wf(e)
    requires e.Call? || e.Attribute? || e.Subscript?
    ensures HeadOk(Native(e), Bare(e, k))
    ensures Native(e) >= 2 && !At0(k, Walrus) ==> !NameThen(Bare(e, k), Walrus)
    ensures !At0(k, Assign) ==> !NameThen(Bare(e, k), Assign)
    decreases e, 0
  {
    match e
    case Call(f, args, kws) =>
      HeadPrint(f, P_ATOM, Cons(LPar, PrintJoin(Comma, args, P_TEST, PrintKeywords(kws, args == [], Cons(RPar, k)))));
    case Attribute(v, a) =>
      if !(v.Constant? && v.c.CInt?) {
        HeadPrint(v, P_ATOM, Cons(Dot, Cons(Nm(Ident(a)), k)));
      }
    case Subscript(v, s) => HeadPrint(v, P_ATOM, Cons(LBrk, PrintSlice(s, Cons(RBrk, k))));
  }

  lemma {:induction false} HeadPrint(e: Expr, p: int, k: Toks)
    requires Wf(e)
    requires 1 <= p
    ensures HeadOk(if Parens(e, p) then 16 else Native(e), Print(e, p, k))
    ensures (Parens(e, p) || Native(e) >= 2) && !At0(k, Walrus) ==> !NameThen(Print(e, p, k), Walrus)
    ensures !At0(k, Assign) ==> !NameThen(Print(e, p, k), Assign)
    decreases e, 2
  {
    if !Parens(e, p) {
      HeadBare(e, k);
    }
  }
}
