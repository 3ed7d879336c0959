/** The expression printer as it is written: methods that append to a buffer.  Each is proved
    to append what Print and its companions specify.  The ghost argument k stands for whatever
    is written afterwards: the buffer and then k read as the old buffer followed by the
    specified tokens and k. */
module PrinterState {
  import opened Tokens
  import opened Ast
  import opened Unparse

  class Printer {
    var b: seq<Tok>
    /** The level of the statement being written. */
    var indent: nat

    constructor ()
      ensures b == [] && indent == 0
    {
      b, indent := [], 0;
    }

    method Write(x: Tok, ghost k: Toks)
      modifies this`b
      ensures b == old(b) + [x]
      ensures Stream(b, k) == Stream(old(b), Cons(x, k))
    {
      StreamAppend(b, [x], k);
      assert Stream([x], k) == Cons(x, k);
      b := b + [x];
    }

    method Expr(e: Expr, prec: int, ghost k: Toks)
      modifies this`b
      ensures Stream(b, k) == Stream(old(b), Print(e, prec, k))
      decreases e, 2
    {
      hide Bare, Stream;
      var paren := Parens(e, prec);
      if paren {
        WrappedNode(e, k);
      } else {
        Node(e, k);
      }
    }

    method WrappedNode(e: Expr, ghost k: Toks)
      modifies this`b
      ensures Stream(b, k) == Stream(old(b), Wrapped(e, k))
      decreases e, 1, 1
    {
      hide Bare, Stream;
      Write(LPar, Bare(e, Cons(RPar, k)));
      Node(e, Cons(RPar, k));
      Write(RPar, k);
    }

    /** A node without the parentheses its position may call for. */
    method Node(e: Expr, ghost k: Toks)
      modifies this`b
      ensures Stream(b, k) == Stream(old(b), Bare(e, k))
      decreases e, 1, 0
    {
      hide Print, Bare, Stream;
      if e.BinOp? || e.UnaryOp? || e.BoolOp? || e.Compare? || e.Await? {
        Operator(e, k);
      } else if e.Name? || e.Constant? || e.NamedExpr? || e.Lambda? || e.IfExp? {
        Test(e, k);
      } else if e.Call? || e.Attribute? || e.Subscript? {
        Trailer(e, k);
      } else if e.Starred? || e.Slice? || e.Yield? || e.YieldFrom? {
        Phrase(e, k);
      } else {
        Display(e, k);
      }
    }

    method Operator(e: Expr, ghost k: Toks)
      requires e.BinOp? || e.UnaryOp? || e.BoolOp? || e.Compare? || e.Await?
      modifies this`b
      ensures Stream(b, k) == Stream(old(b), Bare(e, k))
      decreases e, 0, 1
    {
      hide Print, PrintJoin, PrintComparisons, Wrapped, Stream;
      match e
      case BoolOp(op, vs) => Join(BoolSym(op), vs, BoolPrec(op) + 1, k);
      case BinOp(op, l, r) => Binary(e, k);
      case UnaryOp(op, x) =>
        var p := if op == Not then P_NOT else P_FACTOR;
        Write(UnarySym(op), Print(x, p, k));
        Expr(x, p, k);
      case Compare(l, cs) =>
        Expr(l, P_CMP + 1, PrintComparisons(cs, k));
        Comparisons(cs, k);
      case Await(x) =>
        if x.Await? {
          Write(Nm(KwAwait), Wrapped(x, k));
          WrappedNode(x, k);
        } else {
          Write(Nm(KwAwait), Print(x, P_AWAIT, k));
          Expr(x, P_AWAIT, k);
        }
    }

    /** A binary operation; power leans right, the others left. */
    method Binary(e: Expr, ghost k: Toks)
      requires e.BinOp?
      modifies this`b
      ensures Stream(b, k) == Stream(old(b), Bare(e, k))
      decreases e, 0, 0
    {
      hide Print, Stream;
      var op, l, r := e.op, e.left, e.right;
      var left, right := OpPrec(op), OpPrec(op) + 1;
      if op == Pow {
        left, right := OpPrec(op) + 1, OpPrec(op);
      }
      Expr(l, left, Cons(OpSym(op), Print(r, right, k)));
      Write(OpSym(op), Print(r, right, k));
      Expr(r, right, k);
    }

    method Test(e: Expr, ghost k: Toks)
      requires e.Name? || e.Constant? || e.NamedExpr? || e.Lambda? || e.IfExp?
      modifies this`b
      ensures Stream(b, k) == Stream(old(b), Bare(e, k))
      decreases e, 0
    {
      hide Print, PrintPositional, ConstTok, Stream;
      match e
      case Name(id) => Write(Nm(Ident(id)), k);
      case Constant(c) => Write(ConstTok(c), k);
      case NamedExpr(t, v) =>
        Expr(t, P_ATOM, Cons(Walrus, Print(v, P_NAMED + 1, k)));
        Write(Walrus, Print(v, P_NAMED + 1, k));
        Expr(v, P_NAMED + 1, k);
      case Lambda(ps, body) =>
        Write(Nm(KwLambda), PrintArguments(ps, Cons(Colon, Print(body, P_TEST, k))));
        Params(ps, Cons(Colon, Print(body, P_TEST, k)));
        Write(Colon, Print(body, P_TEST, k));
        Expr(body, P_TEST, k);
      case IfExp(t, body, o) =>
        ghost var k1 := Print(o, P_TEST, k);
        ghost var k2 := Print(t, P_TEST + 1, Cons(Nm(KwElse), k1));
        Expr(body, P_TEST + 1, Cons(Nm(KwIf), k2));
        Write(Nm(KwIf), k2);
        Expr(t, P_TEST + 1, Cons(Nm(KwElse), k1));
        Write(Nm(KwElse), k1);
        Expr(o, P_TEST, k);
    }

    method Trailer(e: Expr, ghost k: Toks)
      requires e.Call? || e.Attribute? || e.Subscript?
      modifies this`b
      ensures Stream(b, k) == Stream(old(b), Bare(e, k))
      decreases e, 0
    {
      hide Print, PrintJoin, PrintKeywords, Stream;
      match e
      case Call(f, args, kws) =>
        ghost var k1 := PrintKeywords(kws, args == [], Cons(RPar, k));
        Expr(f, P_ATOM, Cons(LPar, PrintJoin(Comma, args, P_TEST, k1)));
        Write(LPar, PrintJoin(Comma, args, P_TEST, k1));
        Join(Comma, args, P_TEST, k1);
        Keywords(kws, args == [], Cons(RPar, k));
        Write(RPar, k);
      case Attribute(v, a) =>
        ghost var k1 := Cons(Dot, Cons(Nm(Ident(a)), k));
        if v.Constant? && v.c.CInt? {
          Write(LPar, Print(v, P_ATOM, Cons(RPar, k1)));
          Expr(v, P_ATOM, Cons(RPar, k1));
          Write(RPar, k1);
        } else {
          Expr(v, P_ATOM, k1);
        }
        Write(Dot, Cons(Nm(Ident(a)), k));
        Write(Nm(Ident(a)), k);
      case Subscript(v, s) =>
        Expr(v, P_ATOM, Cons(LBrk, PrintSlice(s, Cons(RBrk, k))));
        Write(LBrk, PrintSlice(s, Cons(RBrk, k)));
        if s.Tuple? && |s.telts| > 1 {
          Join(Comma, s.telts, P_TEST, Cons(RBrk, k));
        } else {
          Expr(s, P_TEST, Cons(RBrk, k));
        }
        Write(RBrk, k);
    }

    method Phrase(e: Expr, ghost k: Toks)
      requires e.Starred? || e.Slice? || e.Yield? || e.YieldFrom?
      modifies this`b
      ensures Stream(b, k) == Stream(old(b), Bare(e, k))
      decreases e, 0
    {
      hide Print, Stream;
      match e
      case Starred(x) =>
        Write(Star, Print(x, P_ATOM, k));
        Expr(x, P_ATOM, k);
      case Slice(lo, up, st) =>
        ghost var k1 := PrintStep(st, k);
        ghost var k2 := PrintOpt(up, k1);
        if lo.Some? {
          Expr(lo.value, P_TEST, Cons(Colon, k2));
        }
        Write(Colon, k2);
        if up.Some? {
          Expr(up.value, P_TEST, k1);
        }
        if st.Some? {
          Write(Colon, Print(st.value, P_TEST, k));
          Expr(st.value, P_TEST, k);
        }
      case Yield(v) =>
        ghost var k1 := if v.Some? then Print(v.value, P_TUPLE, Cons(RPar, k)) else Cons(RPar, k);
        Write(LPar, Cons(Nm(KwYield), k1));
        Write(Nm(KwYield), k1);
        if v.Some? {
          Expr(v.value, P_TUPLE, Cons(RPar, k));
        }
        Write(RPar, k);
      case YieldFrom(x) =>
        ghost var k1 := Print(x, P_TEST, Cons(RPar, k));
        Write(LPar, Cons(Nm(KwYield), Cons(Nm(KwFrom), k1)));
        Write(Nm(KwYield), Cons(Nm(KwFrom), k1));
        Write(Nm(KwFrom), k1);
        Expr(x, P_TEST, Cons(RPar, k));
        Write(RPar, k);
    }

    method Display(e: Expr, ghost k: Toks)
      requires e.Dict? || e.Set? || e.ListComp? || e.SetComp? || e.DictComp? || e.GeneratorExp? || e.ListExpr?
        || e.Tuple?
      modifies this`b
      ensures Stream(b, k) == Stream(old(b), Bare(e, k))
      decreases e, 0
    {
      hide Print, PrintJoin, PrintItems, PrintGens, Stream;
      match e
      case Dict(items) =>
        Write(LBrc, PrintItems(items, true, Cons(RBrc, k)));
        Items(items, Cons(RBrc, k));
        Write(RBrc, k);
      case Set(es) =>
        if es == [] {
          Write(Nm(Ident("set")), Cons(LPar, Cons(RPar, k)));
          Write(LPar, Cons(RPar, k));
          Write(RPar, k);
          return;
        }
        Write(LBrc, PrintJoin(Comma, es, P_TEST, Cons(RBrc, k)));
        Join(Comma, es, P_TEST, Cons(RBrc, k));
        Write(RBrc, k);
      case ListComp(x, gs) =>
        Write(LBrk, Print(x, P_TEST, PrintGens(gs, Cons(RBrk, k))));
        Expr(x, P_TEST, PrintGens(gs, Cons(RBrk, k)));
        Comprehensions(gs, Cons(RBrk, k));
        Write(RBrk, k);
      case SetComp(x, gs) =>
        Write(LBrc, Print(x, P_TEST, PrintGens(gs, Cons(RBrc, k))));
        Expr(x, P_TEST, PrintGens(gs, Cons(RBrc, k)));
        Comprehensions(gs, Cons(RBrc, k));
        Write(RBrc, k);
      case DictComp(key, x, gs) =>
        ghost var k1 := Print(x, P_TEST, PrintGens(gs, Cons(RBrc, k)));
        Write(LBrc, Print(key, P_TEST, Cons(Colon, k1)));
        Expr(key, P_TEST, Cons(Colon, k1));
        Write(Colon, k1);
        Expr(x, P_TEST, PrintGens(gs, Cons(RBrc, k)));
        Comprehensions(gs, Cons(RBrc, k));
        Write(RBrc, k);
      case GeneratorExp(x, gs) =>
        Write(LPar, Print(x, P_TEST, PrintGens(gs, Cons(RPar, k))));
        Expr(x, P_TEST, PrintGens(gs, Cons(RPar, k)));
        Comprehensions(gs, Cons(RPar, k));
        Write(RPar, k);
      case ListExpr(es) =>
        Write(LBrk, PrintJoin(Comma, es, P_TEST, Cons(RBrk, k)));
        Join(Comma, es, P_TEST, Cons(RBrk, k));
        Write(RBrk, k);
      case Tuple(es) =>
        if es == [] {
          Write(LPar, Cons(RPar, k));
          Write(RPar, k);
          return;
        }
        Join(Comma, es, P_TEST, if |es| == 1 then Cons(Comma, k) else k);
        if |es| == 1 {
          Write(Comma, k);
        }
    }

    /** Elements with sep between them. */
    method Join(sep: Tok, es: seq<Expr>, p: int, ghost k: Toks)
      modifies this`b
      ensures Stream(b, k) == Stream(old(b), PrintJoin(sep, es, p, k))
      decreases es, 1
    {
      hide Print, Stream;
      ghost var b0 := b;
      for i := 0 to |es|
        invariant i > 0 ==> Stream(b, PrintTail(sep, es[i..], p, k)) == Stream(b0, PrintJoin(sep, es, p, k))
        invariant i == 0 ==> b == b0
      {
        assert es[i..][0] == es[i] && es[i..][1..] == es[i + 1..];
        if i > 0 {
          Write(sep, Print(es[i], p, PrintTail(sep, es[i + 1..], p, k)));
        } else {
          assert es[0..] == es;
        }
        Expr(es[i], p, PrintTail(sep, es[i + 1..], p, k));
      }
      assert es[|es|..] == [];
    }

    method Comparisons(cs: seq<Comparison>, ghost k: Toks)
      modifies this`b
      ensures Stream(b, k) == Stream(old(b), PrintComparisons(cs, k))
      decreases cs
    {
      hide PrintComparison, Stream;
      ghost var b0 := b;
      assert cs[0..] == cs;
      for i := 0 to |cs|
        invariant Stream(b, PrintComparisons(cs[i..], k)) == Stream(b0, PrintComparisons(cs, k))
      {
        assert cs[i..][0] == cs[i] && cs[i..][1..] == cs[i + 1..];
        Comparator(cs[i], PrintComparisons(cs[i + 1..], k));
      }
      assert cs[|cs|..] == [];
    }

    method Comparator(c: Comparison, ghost k: Toks)
      modifies this`b
      ensures Stream(b, k) == Stream(old(b), PrintComparison(c, k))
      decreases c
    {
      hide Print, Stream;
      ghost var k' := Print(c.right, P_CMP + 1, k);
      match c.op {
      case Eq => Write(OpEq, k');
      case NotEq => Write(OpNe, k');
      case Lt => Write(OpLt, k');
      case LtE => Write(OpLe, k');
      case Gt => Write(OpGt, k');
      case GtE => Write(OpGe, k');
      case Is => Write(Nm(KwIs), k');
      case IsNot => Write(Nm(KwIs), Cons(Nm(KwNot), k')); Write(Nm(KwNot), k');
      case In => Write(Nm(KwIn), k');
      case NotIn => Write(Nm(KwNot), Cons(Nm(KwIn), k')); Write(Nm(KwIn), k');
      }
      Expr(c.right, P_CMP + 1, k);
    }

    method Items(items: seq<DictItem>, ghost k: Toks)
      modifies this`b
      ensures Stream(b, k) == Stream(old(b), PrintItems(items, true, k))
      decreases items
    {
      hide PrintItem, Stream;
      ghost var b0 := b;
      assert items[0..] == items;
      for i := 0 to |items|
        invariant Stream(b, PrintItems(items[i..], i == 0, k)) == Stream(b0, PrintItems(items, true, k))
      {
        assert items[i..][0] == items[i] && items[i..][1..] == items[i + 1..];
        ghost var k' := PrintItems(items[i + 1..], false, k);
        if i > 0 {
          Write(Comma, PrintItem(items[i], k'));
        }
        Item(items[i], k');
      }
      assert items[|items|..] == [];
    }

    method Item(it: DictItem, ghost k: Toks)
      modifies this`b
      ensures Stream(b, k) == Stream(old(b), PrintItem(it, k))
      decreases it
    {
      hide Print, Stream;
      if it.key.None? {
        Write(DStar, Print(it.value, P_BIT_OR, k));
        Expr(it.value, P_BIT_OR, k);
      } else {
        Expr(it.key.value, P_TEST, Cons(Colon, Print(it.value, P_TEST, k)));
        Write(Colon, Print(it.value, P_TEST, k));
        Expr(it.value, P_TEST, k);
      }
    }

    method Keywords(kws: seq<Keyword>, initially: bool, ghost k: Toks)
      modifies this`b
      ensures Stream(b, k) == Stream(old(b), PrintKeywords(kws, initially, k))
      decreases kws
    {
      hide PrintKeyword, Stream;
      ghost var b0 := b;
      var first := initially;
      assert kws[0..] == kws;
      for i := 0 to |kws|
        invariant first == (i == 0 && initially)
        invariant Stream(b, PrintKeywords(kws[i..], first, k)) == Stream(b0, PrintKeywords(kws, initially, k))
      {
        assert kws[i..][0] == kws[i] && kws[i..][1..] == kws[i + 1..];
        ghost var k' := PrintKeywords(kws[i + 1..], false, k);
        if !first {
          Write(Comma, PrintKeyword(kws[i], k'));
        }
        first := false;
        Keyword(kws[i], k');
      }
      assert kws[|kws|..] == [];
    }

    method Keyword(kw: Keyword, ghost k: Toks)
      modifies this`b
      ensures Stream(b, k) == Stream(old(b), PrintKeyword(kw, k))
      decreases kw
    {
      hide Print, Stream;
      if kw.arg.None? {
        Write(DStar, Print(kw.value, P_TEST, k));
        Expr(kw.value, P_TEST, k);
        return;
      }
      Write(Nm(Ident(kw.arg.value)), Cons(Assign, Print(kw.value, P_TEST, k)));
      Write(Assign, Print(kw.value, P_TEST, k));
      Expr(kw.value, P_TEST, k);
    }

    method Comprehensions(gs: seq<Comprehension>, ghost k: Toks)
      modifies this`b
      ensures Stream(b, k) == Stream(old(b), PrintGens(gs, k))
      decreases gs
    {
      hide PrintGen, Stream;
      ghost var b0 := b;
      assert gs[0..] == gs;
      for i := 0 to |gs|
        invariant Stream(b, PrintGens(gs[i..], k)) == Stream(b0, PrintGens(gs, k))
      {
        assert gs[i..][0] == gs[i] && gs[i..][1..] == gs[i + 1..];
        Clause(gs[i], PrintGens(gs[i + 1..], k));
      }
      assert gs[|gs|..] == [];
    }

    method Clause(g: Comprehension, ghost k: Toks)
      modifies this`b
      ensures Stream(b, k) == Stream(old(b), PrintGen(g, k))
      decreases g
    {
      hide Print, PrintIfs, Stream;
      ghost var k1 := Print(g.iter, P_OR, PrintIfs(g.ifs, k));
      ghost var k2 := Print(g.target, P_TUPLE, Cons(Nm(KwIn), k1));
      if g.isAsync {
        Write(Nm(KwAsync), Cons(Nm(KwFor), k2));
      }
      Write(Nm(KwFor), k2);
      Expr(g.target, P_TUPLE, Cons(Nm(KwIn), k1));
      Write(Nm(KwIn), k1);
      Expr(g.iter, P_OR, PrintIfs(g.ifs, k));
      Ifs(g.ifs, k);
    }

    method Ifs(ifs: seq<Expr>, ghost k: Toks)
      modifies this`b
      ensures Stream(b, k) == Stream(old(b), PrintIfs(ifs, k))
      decreases ifs
    {
      hide Print, Stream;
      ghost var b0 := b;
      assert ifs[0..] == ifs;
      for i := 0 to |ifs|
        invariant Stream(b, PrintIfs(ifs[i..], k)) == Stream(b0, PrintIfs(ifs, k))
      {
        assert ifs[i..][0] == ifs[i] && ifs[i..][1..] == ifs[i + 1..];
        Write(Nm(KwIf), Print(ifs[i], P_OR, PrintIfs(ifs[i + 1..], k)));
        Expr(ifs[i], P_OR, PrintIfs(ifs[i + 1..], k));
      }
      assert ifs[|ifs|..] == [];
    }

    // ----- parameter lists -----

    /** A parameter name with its annotation, after a comma unless it is the first. */
    method EmitArg(v: Param, first: bool, ghost k: Toks)
      modifies this`b
      ensures Stream(b, k) == Stream(old(b), Sep(first, PrintParam(v, k)))
      decreases v
    {
      hide Print, Stream;
      if !first {
        Write(Comma, PrintParam(v, k));
      }
      ghost var k' := match v.ann case None => k case Some(x) => Cons(Colon, Print(x, P_TEST, k));
      Write(Nm(Ident(v.name)), k');
      if v.ann.Some? {
        Write(Colon, Print(v.ann.value, P_TEST, k));
        Expr(v.ann.value, P_TEST, k);
      }
    }

    method Params(a: Arguments, ghost k: Toks)
      modifies this`b
      ensures Stream(b, k) == Stream(old(b), PrintArguments(a, k))
      decreases a, 4
    {
      hide PrintPositional, Stream;
      ghost var b0 := b;
      var n0 := |a.posonly|;
      for i := 0 to n0
        invariant Stream(b, Slashed(i == n0 && i > 0, PrintPositional(a, i, k))) == Stream(b0, PrintPositional(a, 0, k))
      {
        Position(a, i, k);
      }
      if n0 > 0 {
        Write(Comma, Cons(Slash, PrintPositional(a, n0, k)));
        Write(Slash, PrintPositional(a, n0, k));
      }
      for i := n0 to PosCount(a)
        invariant Stream(b, PrintPositional(a, i, k)) == Stream(b0, PrintPositional(a, 0, k))
      {
        Position(a, i, k);
      }
      PositionsEnd(a, k);
      StarParams(a, PosCount(a) == 0, k);
    }

    /** Positional parameter number i and its default. */
    method Position(a: Arguments, i: nat, ghost k: Toks)
      requires i < PosCount(a)
      modifies this`b
      ensures Stream(b, Slashed(i + 1 == |a.posonly|, PrintPositional(a, i + 1, k))) ==
              Stream(old(b), PrintPositional(a, i, k))
      decreases a, 3
    {
      hide Print, PrintParam, PrintStar, Stream;
      var d := PosDefault(a, i);
      ghost var k' := Slashed(i + 1 == |a.posonly|, PrintPositional(a, i + 1, k));
      EmitArg(Positional(a, i), i == 0, Defaulted(d, k'));
      if d.Some? {
        Write(Assign, Print(d.value, P_TEST, k'));
        Expr(d.value, P_TEST, k');
      }
    }

    lemma PositionsEnd(a: Arguments, k: Toks)
      ensures PrintPositional(a, PosCount(a), k) == PrintStar(a, PosCount(a) == 0, k)
    {
      hide Print, PrintParam, PrintStar;
    }

    method StarParams(a: Arguments, initially: bool, ghost k: Toks)
      modifies this`b
      ensures Stream(b, k) == Stream(old(b), PrintStar(a, initially, k))
      decreases a, 2
    {
      hide Print, PrintParam, PrintKwOnly, Stream;
      var first := initially;
      if a.vararg.Some? {
        if !first {
          Write(Comma, Cons(Star, PrintParam(a.vararg.value, PrintKwOnly(a, 0, false, k))));
        }
        first := false;
        Write(Star, PrintParam(a.vararg.value, PrintKwOnly(a, 0, false, k)));
        EmitArg(a.vararg.value, true, PrintKwOnly(a, 0, false, k));
      } else if a.kwonly != [] {
        if !first {
          Write(Comma, Cons(Star, PrintKwOnly(a, 0, false, k)));
        }
        first := false;
        Write(Star, PrintKwOnly(a, 0, false, k));
      }
      KwParams(a, first, k);
    }

    method KwParams(a: Arguments, initially: bool, ghost k: Toks)
      requires initially ==> a.kwonly == []
      modifies this`b
      ensures Stream(b, k) == Stream(old(b), PrintKwOnly(a, 0, initially, k))
      decreases a, 1
    {
      hide Print, PrintParam, Stream;
      ghost var b0 := b;
      for i := 0 to |a.kwonly|
        invariant Stream(b, PrintKwOnly(a, i, initially, k)) == Stream(b0, PrintKwOnly(a, 0, initially, k))
      {
        var d := KwDefault(a, i);
        EmitArg(a.kwonly[i], false, Defaulted(d, PrintKwOnly(a, i + 1, initially, k)));
        if d.Some? {
          Write(Assign, Print(d.value, P_TEST, PrintKwOnly(a, i + 1, initially, k)));
          Expr(d.value, P_TEST, PrintKwOnly(a, i + 1, initially, k));
        }
      }
      if a.kwarg.Some? {
        if !initially {
          Write(Comma, Cons(DStar, PrintParam(a.kwarg.value, k)));
        }
        Write(DStar, PrintParam(a.kwarg.value, k));
        EmitArg(a.kwarg.value, true, k);
      }
    }
  }

  /** k, after the positional-only marker when that is due. */
  function Slashed(due: bool, k: Toks): Toks {
    if due then Cons(Comma, Cons(Slash, k)) else k
  }

  /** k, after the default d if there is one. */
  function Defaulted(d: Option<Expr>, k: Toks): Toks {
    if d.Some? then Cons(Assign, Print(d.value, P_TEST, k)) else k
  }

  /** Unparse: the tokens of an expression. */
  method UnparseExpr(e: Expr) returns (ts: seq<Tok>)
    ensures Stream(ts, End) == Print(e, P_TEST, End)
  {
    hide Print;
    var p := new Printer();
    p.Expr(e, P_TEST, End);
    ts := p.b;
  }
}
