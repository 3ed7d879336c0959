/** The v2 expression parser as it is written: a current token, a one-token peek buffer over
    a scanner, and methods that advance.  Every method is proved to return what the grammar
    function of the same name gives for the tokens that were left, and to leave what that
    function leaves. */
module ParserState {
  import opened Tokens
  import opened Ast
  import G = Grammar

  /** r and rem are what g promises: no tree on an error, else its tree and its rest. */
  predicate Gives<T(==)>(g: G.Res<T>, r: Option<T>, rem: Toks) {
    if g.Err? then r.None? else r == Some(g.v) && rem == g.rest
  }

  /** A list result with elements put before it. */
  function Prepend<T>(xs: seq<T>, g: G.Res<seq<T>>): G.Res<seq<T>> {
    if g.Err? then G.Res<seq<T>>.Err else G.Ok(xs + g.v, g.rest)
  }

  lemma PrependMore<T>(xs: seq<T>, x: T, g: G.Res<seq<T>>)
    ensures Prepend(xs, Prepend([x], g)) == Prepend(xs + [x], g)
  {
    if g.Ok? {
      assert xs + ([x] + g.v) == (xs + [x]) + g.v;
    }
  }

  lemma PrependNone<T>(g: G.Res<seq<T>>)
    ensures Prepend([], g) == g
  {
    if g.Ok? {
      assert [] + g.v == g.v;
    }
  }

  lemma PrependEnd<T>(xs: seq<T>, t: Toks)
    ensures Prepend(xs, G.Ok([], t)) == G.Ok(xs, t)
  {
    assert xs + [] == xs;
  }

  /** One turn of the loop over the elements of a display. */
  lemma EltsTurn(close: Tok, t: Toks)
    ensures !At0(t, Comma) ==> G.EltsTail(close, t) == G.Ok([], t)
    ensures At0(t, Comma) && At0(Rest(t), close) ==> G.EltsTail(close, t) == G.Ok([], Rest(t))
    ensures (At0(t, Comma) && !At0(Rest(t), close)) ==>
              (var e := G.ParseStarOrExpr(Rest(t));
               G.EltsTail(close, t) == if e.Err? then G.Err else Prepend([e.v], G.EltsTail(close, e.rest)))
  {
    hide G.ParseStarOrExpr;
  }

  class Parser {
    /** Tokens the scanner has not produced yet. */
    var sc: Toks
    /** The current token; None at the end of the input. */
    var cur: Option<Tok>
    var peek: Option<Tok>
    var hasPeek: bool

    ghost predicate Valid()
      reads this
    {
      && (hasPeek && peek.None? ==> sc == End)
      && (cur.None? ==> Ahead() == End)
    }

    /** The tokens after the current one. */
    ghost function Ahead(): Toks
      reads this
    {
      if !hasPeek then sc else if peek.None? then End else Cons(peek.value, sc)
    }

    /** The tokens from the current one on. */
    ghost function Rem(): Toks
      reads this
    {
      if cur.None? then End else Cons(cur.value, Ahead())
    }

    constructor (src: Toks)
      ensures Valid() && Rem() == src
    {
      cur := if src.End? then None else Some(src.hd);
      sc := if src.End? then End else src.tl;
      hasPeek := false;
      peek := None;
    }

    /** The scanner's next token; it goes on returning the end once it is there. */
    method Scan() returns (t: Option<Tok>)
      modifies this`sc
      ensures old(sc).End? ==> t == None && sc == End
      ensures old(sc).Cons? ==> t == Some(old(sc).hd) && sc == old(sc).tl
    {
      match sc
      case End => t := None;
      case Cons(x, rest) =>
        t := Some(x);
        sc := rest;
    }

    method Advance()
      requires Valid()
      modifies this
      ensures Valid()
      ensures Rem() == if old(Rem()).End? then End else old(Rem()).tl
    {
      if hasPeek {
        cur := peek;
        hasPeek := false;
        return;
      }
      cur := Scan();
    }

    method PeekTok() returns (t: Option<Tok>)
      requires Valid()
      modifies this
      ensures Valid() && Rem() == old(Rem()) && cur == old(cur)
      ensures Rem().Cons? ==> t == if Rem().tl.End? then None else Some(Rem().tl.hd)
      ensures hasPeek && peek == t
    {
      if hasPeek {
        return peek;
      }
      peek := Scan();
      hasPeek := true;
      t := peek;
    }

    /** The current token. */
    function Current(): (t: Option<Tok>)
      reads this
      ensures t == if Rem().End? then None else Some(Rem().hd)
    {
      cur
    }

    predicate Looking(x: Tok)
      reads this
      ensures Looking(x) == At0(Rem(), x)
    {
      cur == Some(x)
    }

    predicate IsKeyword(w: Word)
      reads this
      ensures IsKeyword(w) == IsKw(Rem(), w)
    {
      Looking(Nm(w))
    }

    predicate IsPlainName()
      reads this
      ensures IsPlainName() == AtPlainName(Rem())
    {
      cur.Some? && cur.value.Nm? && cur.value.w.Ident?
    }

    method Expect(x: Tok) returns (ok: bool)
      requires Valid()
      modifies this
      ensures Valid()
      ensures Gives(G.Expect(old(Rem()), x), if ok then Some(()) else None, Rem())
    {
      if !Looking(x) {
        return false;
      }
      Advance();
      ok := true;
    }

    /** Whether the token after a plain name is x. */
    method NameThen(x: Tok) returns (b: bool)
      requires Valid()
      modifies this
      ensures Valid() && Rem() == old(Rem()) && cur == old(cur)
      ensures b == (AtPlainName(Rem()) && At0(Rem().tl, x))
    {
      b := false;
      if IsPlainName() {
        var nxt := PeekTok();
        b := nxt == Some(x);
      }
    }

    method IsCompForStart() returns (b: bool)
      requires Valid()
      modifies this
      ensures Valid() && Rem() == old(Rem()) && cur == old(cur)
      ensures b == G.CompForStart(Rem())
    {
      if IsKeyword(KwFor) {
        return true;
      }
      if !IsKeyword(KwAsync) {
        return false;
      }
      var nxt := PeekTok();
      b := nxt == Some(Nm(KwFor));
    }

    // ----- the ladder -----

    method ParseExpr() returns (r: Option<Expr>)
      requires Valid()
      modifies this
      ensures Valid() && Gives(G.ParseExpr(old(Rem())), r, Rem())
      decreases Len(Rem()), 30
    {
      hide G.ParseLambda, G.ParseYield, G.ParseTernary;
      if IsKeyword(KwLambda) {
        r := ParseLambda();
        return;
      }
      if IsKeyword(KwYield) {
        r := ParseYieldExpr();
        return;
      }
      var walrus := NameThen(Walrus);
      if walrus {
        var id := cur.value.w.id;
        Advance();
        Advance();
        assert Len(old(Rem())) == 2 + Len(Rem());
        var v := ParseExpr();
        return if v.None? then None else Some(NamedExpr(Name(id), v.value));
      }
      r := ParseTernary();
    }

    method ParseYieldExpr() returns (r: Option<Expr>)
      requires Valid() && IsKeyword(KwYield)
      modifies this
      ensures Valid() && Gives(G.ParseYield(old(Rem())), r, Rem())
      decreases Len(Rem()), 29
    {
      hide G.ParseExpr, G.ParseTestlist;
      Advance();
      if IsKeyword(KwFrom) {
        Advance();
        assert Len(old(Rem())) == 2 + Len(Rem());
        var v := ParseExpr();
        return if v.None? then None else Some(YieldFrom(v.value));
      }
      if cur.None? || G.YieldTerminator(cur.value) {
        return Some(Yield(None));
      }
      var v := ParseTestlist();
      r := if v.None? then None else Some(Yield(v));
    }

    method ParseTestlist() returns (r: Option<Expr>)
      requires Valid()
      modifies this
      ensures Valid() && Gives(G.ParseTestlist(old(Rem())), r, Rem())
      decreases Len(Rem()), 32
    {
      hide G.ParseStarOrExpr;
      ghost var t0 := Rem();
      var first := ParseStarOrExpr();
      if first.None? || !Looking(Comma) {
        return first;
      }
      ghost var t1 := Rem();
      var more: seq<Expr> := [];
      PrependNone(G.TestlistTail(t1));
      while Looking(Comma)
        invariant Valid() && Len(Rem()) <= Len(t1)
        invariant G.TestlistTail(t1) == Prepend(more, G.TestlistTail(Rem()))
        decreases Len(Rem())
      {
        ghost var t := Rem();
        Advance();
        if cur.None? || G.ListTerminator(cur.value) {
          PrependEnd(more, Rem());
          return Some(Tuple([first.value] + more));
        }
        var next := ParseStarOrExpr();
        if next.None? {
          return None;
        }
        assert G.TestlistTail(t) == Prepend([next.value], G.TestlistTail(Rem()));
        PrependMore(more, next.value, G.TestlistTail(Rem()));
        more := more + [next.value];
      }
      PrependEnd(more, Rem());
      r := Some(Tuple([first.value] + more));
    }

    method ParseStarOrExpr() returns (r: Option<Expr>)
      requires Valid()
      modifies this
      ensures Valid() && Gives(G.ParseStarOrExpr(old(Rem())), r, Rem())
      decreases Len(Rem()), 31
    {
      hide Rem, Ahead, Valid, Looking, IsKeyword, G.ParseExpr;
      if Looking(Star) {
        Advance();
        var v := ParseExpr();
        return if v.None? then None else Some(Starred(v.value));
      }
      r := ParseExpr();
    }

    method ParseTernary() returns (r: Option<Expr>)
      requires Valid()
      modifies this
      ensures Valid() && Gives(G.ParseTernary(old(Rem())), r, Rem())
      decreases Len(Rem()), 28
    {
      hide Rem, Ahead, Valid, Looking, IsKeyword, G.ParseOr, G.ParseExpr;
      var body := ParseOr();
      if body.None? || !IsKeyword(KwIf) {
        return body;
      }
      Advance();
      var test := ParseOr();
      if test.None? || !IsKeyword(KwElse) {
        return None;
      }
      Advance();
      var orelse := ParseExpr();
      r := if orelse.None? then None else Some(IfExp(test.value, body.value, orelse.value));
    }

    method ParseOr() returns (r: Option<Expr>)
      requires Valid()
      modifies this
      ensures Valid() && Gives(G.ParseOr(old(Rem())), r, Rem())
      decreases Len(Rem()), 27
    {
      hide Rem, Ahead, Valid, Looking, IsKeyword, G.ParseAnd;
      var left := ParseAnd();
      if left.None? || !IsKeyword(KwOr) {
        return left;
      }
      ghost var t1 := Rem();
      var more: seq<Expr> := [];
      PrependNone(G.OrTail(t1));
      while IsKeyword(KwOr)
        invariant Valid() && Len(Rem()) <= Len(t1)
        invariant G.OrTail(t1) == Prepend(more, G.OrTail(Rem()))
        decreases Len(Rem())
      {
        ghost var t := Rem();
        Advance();
        var next := ParseAnd();
        if next.None? {
          return None;
        }
        assert G.OrTail(t) == Prepend([next.value], G.OrTail(Rem()));
        PrependMore(more, next.value, G.OrTail(Rem()));
        more := more + [next.value];
      }
      PrependEnd(more, Rem());
      r := Some(BoolOp(Or, [left.value] + more));
    }

    method ParseAnd() returns (r: Option<Expr>)
      requires Valid()
      modifies this
      ensures Valid() && Gives(G.ParseAnd(old(Rem())), r, Rem())
      decreases Len(Rem()), 25
    {
      hide Rem, Ahead, Valid, Looking, IsKeyword, G.ParseNot;
      var left := ParseNot();
      if left.None? || !IsKeyword(KwAnd) {
        return left;
      }
      ghost var t1 := Rem();
      var more: seq<Expr> := [];
      PrependNone(G.AndTail(t1));
      while IsKeyword(KwAnd)
        invariant Valid() && Len(Rem()) <= Len(t1)
        invariant G.AndTail(t1) == Prepend(more, G.AndTail(Rem()))
        decreases Len(Rem())
      {
        ghost var t := Rem();
        Advance();
        var next := ParseNot();
        if next.None? {
          return None;
        }
        assert G.AndTail(t) == Prepend([next.value], G.AndTail(Rem()));
        PrependMore(more, next.value, G.AndTail(Rem()));
        more := more + [next.value];
      }
      PrependEnd(more, Rem());
      r := Some(BoolOp(And, [left.value] + more));
    }

    method ParseNot() returns (r: Option<Expr>)
      requires Valid()
      modifies this
      ensures Valid() && Gives(G.ParseNot(old(Rem())), r, Rem())
      decreases Len(Rem()), 23
    {
      hide Rem, Ahead, Valid, Looking, IsKeyword, G.ParseCompare;
      if IsKeyword(KwNot) {
        Advance();
        var x := ParseNot();
        return if x.None? then None else Some(UnaryOp(Not, x.value));
      }
      r := ParseCompare();
    }

    method ParseCompare() returns (r: Option<Expr>)
      requires Valid()
      modifies this
      ensures Valid() && Gives(G.ParseCompare(old(Rem())), r, Rem())
      decreases Len(Rem()), 22
    {
      hide Rem, Ahead, Valid, Looking, IsKeyword, G.ParseBin, G.CmpAt;
      var left := ParseBin(7);
      if left.None? {
        return None;
      }
      ghost var t1 := Rem();
      var more: seq<Comparison> := [];
      PrependNone(G.CompareTail(t1));
      while true
        invariant Valid() && Len(Rem()) <= Len(t1)
        invariant G.CompareTail(t1) == Prepend(more, G.CompareTail(Rem()))
        decreases Len(Rem())
      {
        ghost var t := Rem();
        var op := TryComparisonOp();
        if op.None? {
          PrependEnd(more, Rem());
          break;
        }
        var right := ParseBin(7);
        if right.None? {
          return None;
        }
        var c := Comparison(op.value, right.value);
        assert G.CompareTail(t) == Prepend([c], G.CompareTail(Rem()));
        PrependMore(more, c, G.CompareTail(Rem()));
        more := more + [c];
      }
      r := Some(if more == [] then left.value else Compare(left.value, more));
    }

    method TryComparisonOp() returns (r: Option<CmpOp>)
      requires Valid()
      modifies this
      ensures Valid()
      ensures match G.CmpAt(old(Rem()))
              case None => r.None? && Rem() == old(Rem())
              case Some((op, rest)) => r == Some(op) && Rem() == rest
    {
      if cur.None? {
        return None;
      }
      match cur.value
      case OpLt => Advance(); return Some(Lt);
      case OpGt => Advance(); return Some(Gt);
      case OpLe => Advance(); return Some(LtE);
      case OpGe => Advance(); return Some(GtE);
      case OpEq => Advance(); return Some(Eq);
      case OpNe => Advance(); return Some(NotEq);
      case Nm(KwIn) => Advance(); return Some(In);
      case Nm(KwIs) =>
        Advance();
        if IsKeyword(KwNot) {
          Advance();
          return Some(IsNot);
        }
        return Some(Is);
      case Nm(KwNot) =>
        var nxt := PeekTok();
        if nxt == Some(Nm(KwIn)) {
          Advance();
          Advance();
          return Some(NotIn);
        }
        return None;
      case _ => return None;
    }

    /** The six left-associative levels; level 13 is parseUnary. */
    method ParseBin(L: int) returns (r: Option<Expr>)
      requires Valid() && 7 <= L <= 13
      modifies this
      ensures Valid() && Gives(G.ParseBin(L, old(Rem())), r, Rem())
      decreases Len(Rem()), 20 - L
    {
      hide G.ParseUnary, G.OpAt;
      if L == 13 {
        r := ParseUnary();
        return;
      }
      ghost var t0 := Rem();
      r := ParseBin(L + 1);
      if r.None? {
        return;
      }
      ghost var whole := G.ParseBin(L, t0);
      while cur.Some? && G.OpAt(L, cur.value).Some?
        invariant Valid() && Len(Rem()) < Len(t0)
        invariant r.Some? && whole == G.BinTail(L, r.value, Rem())
        decreases Len(Rem())
      {
        var op := G.OpAt(L, cur.value).value;
        Advance();
        var right := ParseBin(L + 1);
        if right.None? {
          return None;
        }
        r := Some(BinOp(op, r.value, right.value));
      }
    }

    method ParseUnary() returns (r: Option<Expr>)
      requires Valid()
      modifies this
      ensures Valid() && Gives(G.ParseUnary(old(Rem())), r, Rem())
      decreases Len(Rem()), 6
    {
      hide G.ParsePower;
      if cur.Some? && G.UnaryAt(cur.value).Some? {
        var op := G.UnaryAt(cur.value).value;
        Advance();
        var x := ParseUnary();
        return if x.None? then None else Some(UnaryOp(op, x.value));
      }
      if IsKeyword(KwAwait) {
        Advance();
        var x := ParseUnary();
        return if x.None? then None else Some(Await(x.value));
      }
      r := ParsePower();
    }

    method ParsePower() returns (r: Option<Expr>)
      requires Valid()
      modifies this
      ensures Valid() && Gives(G.ParsePower(old(Rem())), r, Rem())
      decreases Len(Rem()), 5
    {
      hide Rem, Ahead, Valid, Looking, IsKeyword, G.ParseTrailer, G.ParseUnary;
      var left := ParseTrailer();
      if left.None? || !Looking(DStar) {
        return left;
      }
      Advance();
      var right := ParseUnary();
      r := if right.None? then None else Some(BinOp(Pow, left.value, right.value));
    }

    // ----- trailers -----

    method ParseTrailer() returns (r: Option<Expr>)
      requires Valid()
      modifies this
      ensures Valid() && Gives(G.ParseTrailer(old(Rem())), r, Rem())
      decreases Len(Rem()), 4
    {
      hide Rem, Ahead, Valid, Looking, IsKeyword, G.ParseAtom, G.TrailerTail;
      var atom := ParseAtom();
      if atom.None? {
        return None;
      }
      r := TrailerLoop(atom.value);
    }

    /** The trailer loop, used after an atom and after a parenthesized target. */
    method TrailerLoop(atom: Expr) returns (r: Option<Expr>)
      requires Valid()
      modifies this
      ensures Valid() && Gives(G.TrailerTail(atom, old(Rem())), r, Rem())
      decreases Len(Rem()), 3
    {
      hide Rem, Ahead, Valid, Looking, IsKeyword, G.ParseCallArgs, G.ParseSubscriptBody;
      var e := atom;
      ghost var t0 := Rem();
      while Looking(Dot) || Looking(LPar) || Looking(LBrk)
        invariant Valid() && Len(Rem()) <= Len(t0)
        invariant G.TrailerTail(atom, t0) == G.TrailerTail(e, Rem())
        decreases Len(Rem())
      {
        if Looking(Dot) {
          Advance();
          var a := AttrName();
          if a.None? {
            return None;
          }
          e := Attribute(e, a.value);
        } else if Looking(LPar) {
          Advance();
          var c := ParseCallArgs();
          if c.None? {
            return None;
          }
          e := Call(e, c.value.args, c.value.keywords);
        } else {
          Advance();
          var s := ParseSubscriptBody();
          if s.None? {
            return None;
          }
          var ok := Expect(RBrk);
          if !ok {
            return None;
          }
          e := Subscript(e, s.value);
        }
      }
      r := Some(e);
    }

    method AttrName() returns (r: Option<string>)
      requires Valid()
      modifies this
      ensures Valid() && Gives(G.ParseAttrName(old(Rem())), r, Rem())
    {
      hide G.WordText;
      if cur.None? || !cur.value.Nm? {
        return None;
      }
      r := Some(G.WordText(cur.value.w));
      Advance();
    }

    method ParseSubscriptBody() returns (r: Option<Expr>)
      requires Valid()
      modifies this
      ensures Valid() && Gives(G.ParseSubscriptBody(old(Rem())), r, Rem())
      decreases Len(Rem()), 42
    {
      hide Rem, Ahead, Valid, Looking, IsKeyword, G.ParseSubscriptItem;
      var first := ParseSubscriptItem();
      if first.None? {
        return None;
      }
      if !Looking(Comma) {
        return Some(if first.value.Starred? then Tuple([first.value]) else first.value);
      }
      ghost var t1 := Rem();
      var more: seq<Expr> := [];
      PrependNone(G.SubscriptTail(t1));
      while Looking(Comma)
        invariant Valid() && Len(Rem()) <= Len(t1)
        invariant G.SubscriptTail(t1) == Prepend(more, G.SubscriptTail(Rem()))
        decreases Len(Rem())
      {
        ghost var t := Rem();
        Advance();
        if Looking(RBrk) {
          PrependEnd(more, Rem());
          return Some(Tuple([first.value] + more));
        }
        var next := ParseSubscriptItem();
        if next.None? {
          return None;
        }
        assert G.SubscriptTail(t) == Prepend([next.value], G.SubscriptTail(Rem()));
        PrependMore(more, next.value, G.SubscriptTail(Rem()));
        more := more + [next.value];
      }
      PrependEnd(more, Rem());
      r := Some(Tuple([first.value] + more));
    }

    method ParseSubscriptItem() returns (r: Option<Expr>)
      requires Valid()
      modifies this
      ensures Valid() && Gives(G.ParseSubscriptItem(old(Rem())), r, Rem())
      decreases Len(Rem()), 41
    {
      hide Rem, Ahead, Valid, Looking, IsKeyword, G.ParseExpr, G.ParseSlice;
      if Looking(Star) {
        Advance();
        var v := ParseExpr();
        return if v.None? then None else Some(Starred(v.value));
      }
      var lower: Option<Expr> := None;
      if !Looking(Colon) {
        lower := ParseExpr();
        if lower.None? {
          return None;
        }
      }
      if !Looking(Colon) {
        return lower;
      }
      r := SliceRest(lower);
    }

    /** A slice from its first colon on. */
    method SliceRest(lower: Option<Expr>) returns (r: Option<Expr>)
      requires Valid() && Looking(Colon)
      modifies this
      ensures Valid() && Gives(G.ParseSlice(lower, old(Rem())), r, Rem())
      decreases Len(Rem()), 40
    {
      hide Rem, Ahead, Valid, Looking, IsKeyword, G.ParseExpr;
      Advance();
      ghost var t := Rem();
      var upper: Option<Expr> := None;
      if !Looking(Colon) && !Looking(RBrk) && !Looking(Comma) {
        upper := ParseExpr();
        if upper.None? {
          assert G.ParseSlicePart(t).Err?;
          return None;
        }
      }
      assert G.ParseSlicePart(t) == G.Ok(upper, Rem());
      var step: Option<Expr> := None;
      if Looking(Colon) {
        Advance();
        ghost var u := Rem();
        if !Looking(RBrk) && !Looking(Comma) {
          step := ParseExpr();
          if step.None? {
            assert G.ParseStep(u).Err?;
            return None;
          }
        }
        assert G.ParseStep(u) == G.Ok(step, Rem());
      }
      r := Some(Slice(lower, upper, step));
    }

    method ParseCallArgs() returns (r: Option<G.CallArgs>)
      requires Valid()
      modifies this
      ensures Valid() && Gives(G.ParseCallArgs(old(Rem())), r, Rem())
      decreases Len(Rem()), 42
    {
      hide Rem, Ahead, Valid, Looking, IsKeyword, G.CallTail;
      if Looking(RPar) {
        Advance();
        return Some(G.CallArgs([], []));
      }
      ghost var t0 := Rem();
      ghost var whole := G.CallTail(true, t0);
      var args: seq<Expr> := [];
      var kwargs: seq<Keyword> := [];
      CallsFrom(whole);
      while true
        invariant Valid() && Len(Rem()) <= Len(t0)
        invariant whole == WithArgs(args, kwargs, G.CallTail(args == [] && kwargs == [], Rem()))
        decreases Len(Rem())
      {
        var empty := args == [] && kwargs == [];
        var one, generator := ParseArgument(empty);
        if one.None? {
          return None;
        }
        ghost var args0, kwargs0 := args, kwargs;
        args, kwargs := args + one.value.args, kwargs + one.value.keywords;
        if generator || !Looking(Comma) {
          break;
        }
        Advance();
        if Looking(RPar) {
          break;
        }
        CallsMore(args0, kwargs0, one.value, G.CallTail(false, Rem()));
      }
      var ok := Expect(RPar);
      r := if ok then Some(G.CallArgs(args, kwargs)) else None;
    }

    /** One argument; `generator` says that it took the place of the whole list. */
    method ParseArgument(empty: bool) returns (r: Option<G.CallArgs>, generator: bool)
      requires Valid()
      modifies this
      ensures Valid()
      ensures r.None? ==> G.CallTail(empty, old(Rem())).Err?
      ensures r.Some? ==> Len(Rem()) < Len(old(Rem())) && (r.value.args != [] || r.value.keywords != [])
      ensures r.Some? && !generator ==> G.CallTail(empty, old(Rem())) == G.CallNext(r.value, Rem())
      ensures r.Some? && generator ==>
        empty && G.CallTail(empty, old(Rem())) ==
          if At0(Rem(), RPar) then G.Ok(r.value, Rem().tl) else G.Res<G.CallArgs>.Err
      decreases Len(Rem()), 41
    {
      hide G.ParseExpr, G.ParseGens, G.CompForStart, G.CallNext;
      generator := false;
      if Looking(DStar) {
        Advance();
        var v := ParseExpr();
        r := if v.None? then None else Some(G.CallArgs([], [Keyword(None, v.value)]));
        return;
      }
      if Looking(Star) {
        Advance();
        var v := ParseExpr();
        r := if v.None? then None else Some(G.CallArgs([Starred(v.value)], []));
        return;
      }
      ghost var t := Rem();
      var named := NameThen(Assign);
      if named {
        var name := cur.value.w.id;
        Advance();
        Advance();
        assert Len(t) == 2 + Len(Rem());
        var v := ParseExpr();
        r := if v.None? then None else Some(G.CallArgs([], [Keyword(Some(name), v.value)]));
        return;
      }
      var v := ParseExpr();
      if v.None? {
        return None, false;
      }
      var comp := IsCompForStart();
      if empty && comp {
        var gens := ParseComprehensionClauses();
        return if gens.None? then None else Some(G.CallArgs([GeneratorExp(v.value, gens.value)], [])), true;
      }
      r := Some(G.CallArgs([v.value], []));
    }

    // ----- atoms -----

    method ParseAtom() returns (r: Option<Expr>)
      requires Valid()
      modifies this
      ensures Valid() && Gives(G.ParseAtom(old(Rem())), r, Rem())
      decreases Len(Rem()), 2
    {
      hide G.ParseParenAtom, G.ParseListAtom, G.ParseBraceAtom, G.StringTail, G.WordText;
      if cur.None? {
        return None;
      }
      var tok := cur.value;
      match tok
      case IntLit(d) => Advance(); r := Some(Constant(CInt(d)));
      case FloatLit(x) => Advance(); r := Some(Constant(CFloat(x)));
      case StrLit(_, _) => r := ParseStringAtom();
      case Dots => Advance(); r := Some(Constant(CEllipsis));
      case Nm(KwNone) => Advance(); r := Some(Constant(CNone));
      case Nm(KwTrue) => Advance(); r := Some(Constant(CTrue));
      case Nm(KwFalse) => Advance(); r := Some(Constant(CFalse));
      case Nm(w) => Advance(); r := Some(Name(G.WordText(w)));
      case LPar => Advance(); r := ParseParenAtom();
      case LBrk => Advance(); r := ParseListAtom();
      case LBrc => Advance(); r := ParseBraceAtom();
      case _ => r := None;
    }

    /** Adjacent string literals, joined. */
    method ParseStringAtom() returns (r: Option<Expr>)
      requires Valid() && cur.Some? && cur.value.StrLit?
      modifies this
      ensures Valid()
      ensures var t := old(Rem()); Gives(G.StringTail(t.hd.kind, t.hd.val, t.tl), r, Rem())
    {
      var kind, val := cur.value.kind, cur.value.val;
      Advance();
      ghost var whole := G.StringTail(kind, val, Rem());
      while cur.Some? && cur.value.StrLit?
        invariant Valid() && whole == G.StringTail(kind, val, Rem())
        decreases Len(Rem())
      {
        if (kind == Bytes) != (cur.value.kind == Bytes) {
          return None;
        }
        val := val + cur.value.val;
        Advance();
      }
      r := Some(Constant(CStr(kind, val)));
    }

    method ParseParenAtom() returns (r: Option<Expr>)
      requires Valid()
      modifies this
      ensures Valid() && Gives(G.ParseParenAtom(old(Rem())), r, Rem())
      decreases Len(Rem()), 35
    {
      hide Rem, Ahead, Valid, Looking, IsKeyword, G.ParseStarOrExpr, G.ParseGens, G.CompForStart;
      if Looking(RPar) {
        Advance();
        return Some(Tuple([]));
      }
      var first := ParseStarOrExpr();
      if first.None? {
        return None;
      }
      var comp := IsCompForStart();
      if comp {
        var gens := ParseComprehensionClauses();
        if gens.None? {
          return None;
        }
        var ok := Expect(RPar);
        return if ok then Some(GeneratorExp(first.value, gens.value)) else None;
      }
      if Looking(RPar) {
        Advance();
        return first;
      }
      var comma := Expect(Comma);
      if !comma {
        return None;
      }
      ghost var t1 := Rem();
      var more: seq<Expr> := [];
      PrependNone(G.ParenTail(t1));
      while !Looking(RPar)
        invariant Valid() && Len(Rem()) <= Len(t1)
        invariant G.ParenTail(t1) == Prepend(more, G.ParenTail(Rem()))
        decreases Len(Rem())
      {
        ghost var t := Rem();
        var next := ParseStarOrExpr();
        if next.None? {
          return None;
        }
        if Looking(Comma) {
          Advance();
          assert G.ParenTail(t) == Prepend([next.value], G.ParenTail(Rem()));
          PrependMore(more, next.value, G.ParenTail(Rem()));
          more := more + [next.value];
        } else {
          assert G.ParenTail(t) == G.Ok([next.value], Rem());
          more := more + [next.value];
          var end := Expect(RPar);
          return if end then Some(Tuple([first.value] + more)) else None;
        }
      }
      PrependEnd(more, Rem());
      var end := Expect(RPar);
      r := if end then Some(Tuple([first.value] + more)) else None;
    }

    /** Elements of a list or set display after the first. */
    method Elements(close: Tok) returns (r: Option<seq<Expr>>)
      requires Valid()
      modifies this
      ensures Valid() && Gives(G.EltsTail(close, old(Rem())), r, Rem())
      decreases Len(Rem()), 35
    {
      hide Rem, Ahead, Valid, Looking, IsKeyword, G.ParseStarOrExpr, G.EltsTail;
      ghost var t1 := Rem();
      var more: seq<Expr> := [];
      PrependNone(G.EltsTail(close, t1));
      while Looking(Comma)
        invariant Valid() && Len(Rem()) <= Len(t1)
        invariant G.EltsTail(close, t1) == Prepend(more, G.EltsTail(close, Rem()))
        decreases Len(Rem())
      {
        ghost var t := Rem();
        EltsTurn(close, t);
        Advance();
        if Looking(close) {
          PrependEnd(more, Rem());
          return Some(more);
        }
        var next := ParseStarOrExpr();
        if next.None? {
          return None;
        }
        assert G.EltsTail(close, t) == Prepend([next.value], G.EltsTail(close, Rem()));
        PrependMore(more, next.value, G.EltsTail(close, Rem()));
        more := more + [next.value];
      }
      EltsTurn(close, Rem());
      PrependEnd(more, Rem());
      r := Some(more);
    }

    method ParseListAtom() returns (r: Option<Expr>)
      requires Valid()
      modifies this
      ensures Valid() && Gives(G.ParseListAtom(old(Rem())), r, Rem())
      decreases Len(Rem()), 36
    {
      hide Rem, Ahead, Valid, Looking, IsKeyword, G.ParseStarOrExpr, G.ParseGens, G.CompForStart, G.EltsTail;
      if Looking(RBrk) {
        Advance();
        return Some(ListExpr([]));
      }
      var first := ParseStarOrExpr();
      if first.None? {
        return None;
      }
      var comp := IsCompForStart();
      if comp {
        var gens := ParseComprehensionClauses();
        if gens.None? {
          return None;
        }
        var ok := Expect(RBrk);
        return if ok then Some(ListComp(first.value, gens.value)) else None;
      }
      var more := Elements(RBrk);
      if more.None? {
        return None;
      }
      var ok := Expect(RBrk);
      r := if ok then Some(ListExpr([first.value] + more.value)) else None;
    }

    method ParseBraceAtom() returns (r: Option<Expr>)
      requires Valid()
      modifies this
      ensures Valid() && Gives(G.ParseBraceAtom(old(Rem())), r, Rem())
      decreases Len(Rem()), 37
    {
      hide Rem, Ahead, Valid, Looking, IsKeyword, G.ParseExpr, G.ParseStarOrExpr, G.ParseGens, G.CompForStart,
        G.EltsTail, G.DictTail, G.ParseDictRest;
      if Looking(RBrc) {
        Advance();
        return Some(Dict([]));
      }
      if Looking(DStar) {
        Advance();
        var v := ParseExpr();
        if v.None? {
          return None;
        }
        var items := DictItems();
        if items.None? {
          return None;
        }
        var ok := Expect(RBrc);
        return if ok then Some(Dict([DictItem(None, v.value)] + items.value)) else None;
      }
      var first := ParseStarOrExpr();
      if first.None? {
        return None;
      }
      if Looking(Colon) {
        Advance();
        r := DictFrom(first.value);
        return;
      }
      var comp := IsCompForStart();
      if comp {
        var gens := ParseComprehensionClauses();
        if gens.None? {
          return None;
        }
        var ok := Expect(RBrc);
        return if ok then Some(SetComp(first.value, gens.value)) else None;
      }
      var more := Elements(RBrc);
      if more.None? {
        return None;
      }
      var ok := Expect(RBrc);
      r := if ok then Some(Set([first.value] + more.value)) else None;
    }

    method DictFrom(key: Expr) returns (r: Option<Expr>)
      requires Valid()
      modifies this
      ensures Valid() && Gives(G.ParseDictRest(key, old(Rem())), r, Rem())
      decreases Len(Rem()), 36
    {
      hide Rem, Ahead, Valid, Looking, IsKeyword, G.ParseExpr, G.ParseGens, G.CompForStart, G.DictTail;
      var v := ParseExpr();
      if v.None? {
        return None;
      }
      var comp := IsCompForStart();
      if comp {
        var gens := ParseComprehensionClauses();
        if gens.None? {
          return None;
        }
        var ok := Expect(RBrc);
        return if ok then Some(DictComp(key, v.value, gens.value)) else None;
      }
      var items := DictItems();
      if items.None? {
        return None;
      }
      var ok := Expect(RBrc);
      r := if ok then Some(Dict([DictItem(Some(key), v.value)] + items.value)) else None;
    }

    method DictItems() returns (r: Option<seq<DictItem>>)
      requires Valid()
      modifies this
      ensures Valid() && Gives(G.DictTail(old(Rem())), r, Rem())
      decreases Len(Rem()), 35
    {
      hide Rem, Ahead, Valid, Looking, IsKeyword, G.ParseDictItem;
      ghost var t1 := Rem();
      var items: seq<DictItem> := [];
      PrependNone(G.DictTail(t1));
      while Looking(Comma)
        invariant Valid() && Len(Rem()) <= Len(t1)
        invariant G.DictTail(t1) == Prepend(items, G.DictTail(Rem()))
        decreases Len(Rem())
      {
        ghost var t := Rem();
        Advance();
        if Looking(RBrc) {
          PrependEnd(items, Rem());
          return Some(items);
        }
        var it := DictEntry();
        if it.None? {
          return None;
        }
        assert G.DictTail(t) == Prepend([it.value], G.DictTail(Rem()));
        PrependMore(items, it.value, G.DictTail(Rem()));
        items := items + [it.value];
      }
      PrependEnd(items, Rem());
      r := Some(items);
    }

    /** `key: value` or `**value`. */
    method DictEntry() returns (r: Option<DictItem>)
      requires Valid()
      modifies this
      ensures Valid() && Gives(G.ParseDictItem(old(Rem())), r, Rem())
      decreases Len(Rem()), 34
    {
      hide Rem, Ahead, Valid, Looking, IsKeyword, G.ParseExpr;
      if Looking(DStar) {
        Advance();
        var v := ParseExpr();
        if v.None? {
          return None;
        }
        r := Some(DictItem(None, v.value));
      } else {
        var k := ParseExpr();
        if k.None? {
          return None;
        }
        var ok := Expect(Colon);
        if !ok {
          return None;
        }
        var v := ParseExpr();
        if v.None? {
          return None;
        }
        r := Some(DictItem(k, v.value));
      }
    }

    // ----- comprehensions and targets -----

    method ParseComprehensionClauses() returns (r: Option<seq<Comprehension>>)
      requires Valid()
      modifies this
      ensures Valid() && Gives(G.ParseGens(old(Rem())), r, Rem())
      decreases Len(Rem()), 41
    {
      hide Rem, Ahead, Valid, Looking, IsKeyword, G.ParseGen;
      ghost var t1 := Rem();
      var gens: seq<Comprehension> := [];
      PrependNone(G.ParseGens(t1));
      var more := IsCompForStart();
      while more
        invariant Valid() && Len(Rem()) <= Len(t1)
        invariant more == G.CompForStart(Rem())
        invariant G.ParseGens(t1) == Prepend(gens, G.ParseGens(Rem()))
        decreases Len(Rem())
      {
        ghost var t := Rem();
        var g := ParseClause();
        if g.None? {
          return None;
        }
        assert G.ParseGens(t) == Prepend([g.value], G.ParseGens(Rem()));
        PrependMore(gens, g.value, G.ParseGens(Rem()));
        gens := gens + [g.value];
        more := IsCompForStart();
      }
      PrependEnd(gens, Rem());
      r := Some(gens);
    }

    method ParseClause() returns (r: Option<Comprehension>)
      requires Valid() && G.CompForStart(Rem())
      modifies this
      ensures Valid() && Gives(G.ParseGen(old(Rem())), r, Rem())
      decreases Len(Rem()), 40
    {
      hide Rem, Ahead, Valid, Looking, IsKeyword, G.ParseTargetList, G.ParseOr, G.IfsTail;
      var isAsync := IsKeyword(KwAsync);
      if isAsync {
        Advance();
      }
      Advance();
      var target := ParseTargetList();
      if target.None? || !IsKeyword(KwIn) {
        return None;
      }
      Advance();
      var iter := ParseOr();
      if iter.None? {
        return None;
      }
      var ifs := Conditions();
      if ifs.None? {
        return None;
      }
      r := Some(Comprehension(target.value, iter.value, ifs.value, isAsync));
    }

    /** The `if` clauses of one comprehension clause. */
    method Conditions() returns (r: Option<seq<Expr>>)
      requires Valid()
      modifies this
      ensures Valid() && Gives(G.IfsTail(old(Rem())), r, Rem())
      decreases Len(Rem()), 39
    {
      hide Rem, Ahead, Valid, Looking, IsKeyword, G.ParseOr;
      ghost var t1 := Rem();
      var ifs: seq<Expr> := [];
      PrependNone(G.IfsTail(t1));
      while IsKeyword(KwIf)
        invariant Valid() && Len(Rem()) <= Len(t1)
        invariant G.IfsTail(t1) == Prepend(ifs, G.IfsTail(Rem()))
        decreases Len(Rem())
      {
        ghost var t := Rem();
        Advance();
        var cond := ParseOr();
        if cond.None? {
          return None;
        }
        assert G.IfsTail(t) == Prepend([cond.value], G.IfsTail(Rem()));
        PrependMore(ifs, cond.value, G.IfsTail(Rem()));
        ifs := ifs + [cond.value];
      }
      PrependEnd(ifs, Rem());
      r := Some(ifs);
    }

    method ParseTargetList() returns (r: Option<Expr>)
      requires Valid()
      modifies this
      ensures Valid() && Gives(G.ParseTargetList(old(Rem())), r, Rem())
      decreases Len(Rem()), 39
    {
      hide Rem, Ahead, Valid, Looking, IsKeyword, G.ParseTargetAtom;
      var first := ParseTargetAtom();
      if first.None? || !Looking(Comma) {
        return first;
      }
      ghost var t1 := Rem();
      var more: seq<Expr> := [];
      PrependNone(G.TargetListTail(t1));
      while Looking(Comma)
        invariant Valid() && Len(Rem()) <= Len(t1)
        invariant G.TargetListTail(t1) == Prepend(more, G.TargetListTail(Rem()))
        decreases Len(Rem())
      {
        ghost var t := Rem();
        Advance();
        if IsKeyword(KwIn) || Looking(RPar) || Looking(RBrk) || Looking(RBrc) {
          PrependEnd(more, Rem());
          return Some(Tuple([first.value] + more));
        }
        var next := ParseTargetAtom();
        if next.None? {
          return None;
        }
        assert G.TargetListTail(t) == Prepend([next.value], G.TargetListTail(Rem()));
        PrependMore(more, next.value, G.TargetListTail(Rem()));
        more := more + [next.value];
      }
      PrependEnd(more, Rem());
      r := Some(Tuple([first.value] + more));
    }

    method ParseTargetAtom() returns (r: Option<Expr>)
      requires Valid()
      modifies this
      ensures Valid() && Gives(G.ParseTargetAtom(old(Rem())), r, Rem())
      decreases Len(Rem()), 38
    {
      hide G.ParseParenAtom, G.TrailerTail, G.TargetTail, G.WordText, G.TargetElts;
      if Looking(Star) {
        Advance();
        var v := ParseTargetAtom();
        return if v.None? then None else Some(Starred(v.value));
      }
      if Looking(LPar) {
        Advance();
        var e := ParseParenAtom();
        if e.None? {
          return None;
        }
        r := TrailerLoop(e.value);
        return;
      }
      if Looking(LBrk) {
        Advance();
        var es := TargetElements();
        if es.None? {
          return None;
        }
        var ok := Expect(RBrk);
        return if ok then Some(ListExpr(es.value)) else None;
      }
      if cur.None? || !cur.value.Nm? {
        return None;
      }
      var name := Name(G.WordText(cur.value.w));
      Advance();
      r := TargetLoop(name);
    }

    method TargetElements() returns (r: Option<seq<Expr>>)
      requires Valid()
      modifies this
      ensures Valid() && Gives(G.TargetElts(old(Rem())), r, Rem())
      decreases Len(Rem()), 39
    {
      hide Rem, Ahead, Valid, Looking, IsKeyword, G.ParseTargetAtom;
      ghost var t1 := Rem();
      var es: seq<Expr> := [];
      PrependNone(G.TargetElts(t1));
      while !Looking(RBrk)
        invariant Valid() && Len(Rem()) <= Len(t1)
        invariant G.TargetElts(t1) == Prepend(es, G.TargetElts(Rem()))
        decreases Len(Rem())
      {
        ghost var t := Rem();
        var e := ParseTargetAtom();
        if e.None? {
          return None;
        }
        if !Looking(Comma) {
          assert G.TargetElts(t) == G.Ok([e.value], Rem());
          return Some(es + [e.value]);
        }
        Advance();
        assert G.TargetElts(t) == Prepend([e.value], G.TargetElts(Rem()));
        PrependMore(es, e.value, G.TargetElts(Rem()));
        es := es + [e.value];
      }
      PrependEnd(es, Rem());
      r := Some(es);
    }

    method TargetLoop(name: Expr) returns (r: Option<Expr>)
      requires Valid()
      modifies this
      ensures Valid() && Gives(G.TargetTail(name, old(Rem())), r, Rem())
      decreases Len(Rem()), 3
    {
      hide Rem, Ahead, Valid, Looking, IsKeyword, G.ParseSubscriptBody;
      var e := name;
      ghost var t0 := Rem();
      while Looking(Dot) || Looking(LBrk)
        invariant Valid() && Len(Rem()) <= Len(t0)
        invariant G.TargetTail(name, t0) == G.TargetTail(e, Rem())
        decreases Len(Rem())
      {
        if Looking(Dot) {
          Advance();
          var a := AttrName();
          if a.None? {
            return None;
          }
          e := Attribute(e, a.value);
        } else {
          Advance();
          var s := ParseSubscriptBody();
          if s.None? {
            return None;
          }
          var ok := Expect(RBrk);
          if !ok {
            return None;
          }
          e := Subscript(e, s.value);
        }
      }
      r := Some(e);
    }

    // ----- lambda -----

    method ParseLambda() returns (r: Option<Expr>)
      requires Valid() && IsKeyword(KwLambda)
      modifies this
      ensures Valid() && Gives(G.ParseLambda(old(Rem())), r, Rem())
      decreases Len(Rem()), 29
    {
      hide Rem, Ahead, Valid, Looking, IsKeyword, G.LambdaArgs, G.ParseExpr;
      Advance();
      var ps := ParseLambdaArgs();
      if ps.None? {
        return None;
      }
      var ok := Expect(Colon);
      if !ok {
        return None;
      }
      var b := ParseExpr();
      r := if b.None? then None else Some(Lambda(ps.value, b.value));
    }

    method ParseLambdaArgs() returns (r: Option<Arguments>)
      requires Valid()
      modifies this
      ensures Valid() && Gives(G.LambdaArgs(G.NO_ARGS, false, old(Rem())), r, Rem())
      decreases Len(Rem()), 41
    {
      hide Rem, Ahead, Valid, Looking, IsKeyword, G.LambdaArg;
      var a := G.NO_ARGS;
      var kwonly := false;
      ghost var t0 := Rem();
      while !Looking(Colon)
        invariant Valid() && Len(Rem()) <= Len(t0)
        invariant G.LambdaArgs(G.NO_ARGS, false, t0) == G.LambdaArgs(a, kwonly, Rem())
        decreases Len(Rem())
      {
        var s := ParseLambdaArg(a, kwonly);
        if s.None? {
          return None;
        }
        a, kwonly := s.value.0, s.value.1;
        if Looking(Comma) {
          Advance();
        } else if !Looking(Colon) {
          return None;
        }
      }
      r := Some(a);
    }

    /** One parameter or marker, added to a; the second result is the loop's state. */
    method ParseLambdaArg(a: Arguments, kwonly: bool) returns (r: Option<(Arguments, bool)>)
      requires Valid()
      modifies this
      ensures Valid() && Gives(G.LambdaArg(a, kwonly, old(Rem())), r, Rem())
      decreases Len(Rem()), 40
    {
      hide Rem, Ahead, Valid, Looking, IsKeyword, G.ParseExpr, G.WordText, G.AddParam;
      if Looking(Star) {
        Advance();
        if Looking(Comma) || Looking(Colon) {
          return Some((a, true));
        }
        var n := AttrName();
        return if n.None? then None else Some((a.(vararg := Some(Param(n.value, None))), true));
      }
      if Looking(DStar) {
        Advance();
        var n := AttrName();
        return if n.None? then None else Some((a.(kwarg := Some(Param(n.value, None))), kwonly));
      }
      if Looking(Slash) {
        Advance();
        return Some((a.(posonly := a.args, args := []), kwonly));
      }
      var n := AttrName();
      if n.None? {
        return None;
      }
      ghost var u := Rem();
      var d: Option<Expr> := None;
      if Looking(Assign) {
        Advance();
        d := ParseExpr();
        if d.None? {
          assert G.ParseDefault(u).Err?;
          return None;
        }
      }
      assert G.ParseDefault(u) == G.Ok(d, Rem());
      r := Some((G.AddParam(a, kwonly, Param(n.value, None), d), kwonly));
    }
  }

  /** A whole token stream as one expression. */
  method ParseExpression(src: Toks) returns (r: Option<Expr>)
    ensures r == G.ParseExpression(src)
  {
    hide G.ParseExpr;
    var p := new Parser(src);
    r := p.ParseExpr();
    if r.Some? && p.cur.Some? {
      return None;
    }
  }

  lemma CallsFrom(g: G.Res<G.CallArgs>)
    ensures WithArgs([], [], g) == g
  {
    if g.Ok? {
      assert [] + g.v.args == g.v.args && [] + g.v.keywords == g.v.keywords;
    }
  }

  lemma CallsMore(args: seq<Expr>, kws: seq<Keyword>, one: G.CallArgs, g: G.Res<G.CallArgs>)
    ensures WithArgs(args, kws, WithArgs(one.args, one.keywords, g)) ==
            WithArgs(args + one.args, kws + one.keywords, g)
  {
    if g.Ok? {
      assert args + (one.args + g.v.args) == (args + one.args) + g.v.args;
      assert kws + (one.keywords + g.v.keywords) == (kws + one.keywords) + g.v.keywords;
    }
  }

  function WithArgs(args: seq<Expr>, kws: seq<Keyword>, g: G.Res<G.CallArgs>): G.Res<G.CallArgs> {
    if g.Err? then G.Res<G.CallArgs>.Err else G.Ok(G.CallArgs(args + g.v.args, kws + g.v.keywords), g.rest)
  }
}
