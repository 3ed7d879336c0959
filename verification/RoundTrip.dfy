/** Parsing what the printer wrote.

    Main result, PrintThenParse: for every well-formed tree, every printing precedence and
    every ladder level that fits it, followed by any tokens that cannot extend that level,
    the parser builds Reparse(e) and leaves the following tokens unread. */
module RoundTrip {
  import opened Tokens
  import opened Ast
  import opened Unparse
  import opened Grammar
  import opened Reading
  import opened Descent
  import opened Consumption
  import OneLine

  /** e printed at precedence p may be read at level L. */
  predicate Readable(e: Expr, p: int, L: int) {
    1 <= L <= 15 && L <= p <= 16 && (Parens(e, p) || L <= Native(e))
  }

  lemma Levels(t: Toks, r: Res<Expr>)
    ensures ParseAt(1, t) == ParseExpr(t) && Cont(1, r) == r
    ensures ParseAt(16, t) == ParseAtom(t) && Cont(16, r) == r
  {
    hide ParseExpr, ParseAtom;
  }

  lemma TailJoin(sep: Tok, es: seq<Expr>, p: int, k: Toks)
    requires es != []
    ensures PrintTail(sep, es, p, k) == Cons(sep, PrintJoin(sep, es, p, k))
    ensures PrintJoin(sep, es, p, k) == Print(es[0], p, PrintTail(sep, es[1..], p, k))
  {
    hide Print;
  }

  lemma PrintStarred(x: Expr, p: int, k: Toks)
    requires p <= 16
    ensures Print(Starred(x), p, k) == Cons(Star, Print(x, 16, k))
  {
    assert Print(Starred(x), p, k) == Bare(Starred(x), k);
    hide Print;
  }

  /** Below the level that builds a tree, and above parentheses, the follow is no obstacle. */
  lemma LevelFits(e: Expr, p: int, L: int, k: Toks)
    requires Readable(e, p, L) && Fits(L, k)
    ensures Fits(16, k)
    ensures !Parens(e, p) ==> L <= Native(e) <= 16 && Fits(Native(e), k) && !Packed(e)
    ensures Parens(e, p) ==> e != Tuple([])
    ensures L == 1 ==> !At0(k, Walrus)
  {
    assert Binds(k) <= 15;
  }

  lemma {:induction false} PrintThenParse(e: Expr, p: int, L: int, k: Toks)
    requires Wf(e)
    requires Readable(e, p, L)
    requires Fits(L, k)
    ensures ParseAt(L, Print(e, p, k)) == Cont(L, Of(Reparse(e), k))
    decreases e, 20
  {
    hide ParseAt, Cont, Bare, Reparse, Wf, Starter, Binds, Fits, NameThen, Native;
    HeadPrint(e, p, k);
    LevelFits(e, p, L, k);
    if Parens(e, p) {
      WrappedAtom(e, k);
      Levels(Wrapped(e, k), Of(Reparse(e), k));
      Down(16, L, Wrapped(e, k), Reparse(e), k);
    } else {
      BareNative(e, k);
      Down(Native(e), L, Bare(e, k), Reparse(e), k);
    }
  }

  /** An expression printed at any precedence from P_TEST up, read by parseExpr. */
  lemma {:induction false} ReadExpr(e: Expr, p: int, k: Toks)
    requires Wf(e) && 1 <= p <= 16 && Fits(1, k)
    ensures ParseExpr(Print(e, p, k)) == Of(Reparse(e), k)
    ensures HeadOk(1, Print(e, p, k))
    ensures ParseStarOrExpr(Print(e, p, k)) == Of(Reparse(e), k)
    decreases e, 21
  {
    hide ParseAt, Cont, Print, Reparse, ParseExpr, ParseStarOrExpr, Wf, Fits, HeadOk, NameThen;
    HeadPrint(e, p, k);
    HeadDown(if Parens(e, p) then 16 else Native(e), Print(e, p, k));
    PrintThenParse(e, p, 1, k);
    Levels(Print(e, p, k), Of(Reparse(e), k));
  }

  lemma HeadDown(n: int, t: Toks)
    requires n >= 1 && HeadOk(n, t)
    ensures HeadOk(1, t) && ParseStarOrExpr(t) == ParseExpr(t)
  {
    hide ParseExpr;
  }

  lemma StarlessElt(t: Toks)
    requires !At0(t, Star)
    ensures ParseStarOrExpr(t) == ParseExpr(t)
  {
    hide ParseExpr;
  }

  /** An expression and a closing parenthesis make a parenthesized expression. */
  lemma ParenGlue(t: Toks, r: Option<Expr>, k: Toks)
    requires ParseStarOrExpr(t) == Of(r, Cons(RPar, k))
    requires !At0(t, RPar)
    ensures ParseParenAtom(t) == Of(r, k)
  {
    hide ParseStarOrExpr;
  }

  lemma {:induction false} WrappedAtom(e: Expr, k: Toks)
    requires Wf(e)
    requires e != Tuple([])
    ensures ParseAtom(Wrapped(e, k)) == Of(Reparse(e), k)
    decreases e, 15
  {
    hide Print, Bare, Reparse, ParseStarOrExpr, ParseExpr, ParseAt, Cont, ParseParenAtom;
    var t := Bare(e, Cons(RPar, k));
    assert ParseAtom(Wrapped(e, k)) == ParseParenAtom(t);
    if e.Tuple? {
      TupleAtom(e.telts, k);
    } else {
      BareNative(e, Cons(RPar, k));
      HeadBare(e, Cons(RPar, k));
      Enclose(Native(e), t, Reparse(e), k);
    }
  }

  lemma Enclose(n: int, t: Toks, r: Option<Expr>, k: Toks)
    requires 1 <= n <= 16 && HeadOk(n, t) && (n > 1 ==> !NameThen(t, Walrus))
    requires ParseAt(n, t) == Cont(n, Of(r, Cons(RPar, k)))
    ensures ParseParenAtom(t) == Of(r, k)
  {
    hide ParseStarOrExpr, ParseExpr, ParseAt, Cont, ParseParenAtom, NameThen;
    Down(n, 1, t, r, Cons(RPar, k));
    Levels(t, Of(r, Cons(RPar, k)));
    StarlessElt(t);
    ParenGlue(t, r, k);
  }

  // ----- displays, arguments and other lists -----

  lemma ReStarred(x: Expr)
    ensures Reparse(Starred(x)) == match Reparse(x) case None => None case Some(x') => Some(Starred(x'))
  {
    hide ReAll, ReOpt, ReArgs, ReItems, ReGens, ReComparisons, ReKeywords, ReSlice;
  }

  lemma ReAllOne(es: seq<Expr>)
    requires |es| == 1
    ensures ReAll(es) == match Reparse(es[0]) case None => None case Some(x) => Some([x])
  {
    hide Reparse;
    assert ReAll(es[1..]) == Some([]);
    if Reparse(es[0]).Some? {
      assert [Reparse(es[0]).value] + [] == [Reparse(es[0]).value];
    }
  }

  lemma ReAllCons(es: seq<Expr>)
    requires es != []
    ensures ReAll(es) ==
      match Both(Reparse(es[0]), ReAll(es[1..])) case None => None case Some(x) => Some([x.0] + x.1)
  {
    hide Reparse;
  }

  /** The head of an element. */
  predicate EltHead(e: Expr, t: Toks) {
    t.Cons? && (Starter(t.hd) || (e.Starred? && t.hd == Star))
  }

  predicate ArgHead(t: Toks) {
    t.Cons? && t.hd != RPar
  }

  lemma {:induction false} ReadElt(e: Expr, k: Toks)
    requires WfElt(e) && Fits(1, k)
    ensures ParseStarOrExpr(Print(e, 1, k)) == Of(Reparse(e), k)
    ensures EltHead(e, Print(e, 1, k))
    decreases e, 25
  {
    hide Print, Reparse, ParseExpr;
    if e.Starred? {
      ReadExpr(e.starred, 16, k);
      PrintStarred(e.starred, 1, k);
      ReStarred(e.starred);
    } else {
      ReadExpr(e, 1, k);
    }
  }

  /** Elements of a tuple in parentheses, after the opening parenthesis. */
  lemma {:induction false} ReadParenElts(es: seq<Expr>, k: Toks)
    requires es != [] && WfElts(es)
    ensures ParenTail(PrintJoin(Comma, es, 1, Cons(RPar, k))) == Of(ReAll(es), Cons(RPar, k))
    decreases es, 0
  {
    hide Print, Reparse, ParseStarOrExpr;
    ReadElt(es[0], PrintTail(Comma, es[1..], 1, Cons(RPar, k)));
    if es[1..] != [] {
      ReadParenElts(es[1..], k);
      TailJoin(Comma, es[1..], 1, Cons(RPar, k));
    } else {
      ReAllOne(es);
    }
  }

  lemma ParenTupleGlue(t: Toks, f: Option<Expr>, u: Toks, es: Option<seq<Expr>>, k: Toks)
    requires !At0(t, RPar)
    requires ParseStarOrExpr(t) == Of(f, Cons(Comma, u))
    requires ParenTail(u) == Of(es, Cons(RPar, k))
    ensures ParseParenAtom(t) == match Both(f, es) case None => Err case Some(x) => Ok(Tuple([x.0] + x.1), k)
  {
    hide ParseStarOrExpr, ParenTail;
  }

  lemma ReTuple(es: seq<Expr>)
    ensures Reparse(Tuple(es)) == match ReAll(es) case None => None case Some(xs) => Some(Tuple(xs))
  {
    hide ReAll, ReOpt, ReArgs, ReItems, ReGens, ReComparisons, ReKeywords, ReSlice;
  }

  lemma BareTuple(es: seq<Expr>, k: Toks)
    requires es != []
    ensures Bare(Tuple(es), k) == PrintJoin(Comma, es, P_TEST, if |es| == 1 then Cons(Comma, k) else k)
  {
    hide PrintJoin;
  }

  lemma ParenTailEnd(k: Toks)
    ensures ParenTail(Cons(RPar, k)) == Ok([], Cons(RPar, k))
  {
  }

  lemma {:induction false} TupleAtom(es: seq<Expr>, k: Toks)
    requires es != [] && WfElts(es)
    ensures ParseParenAtom(Bare(Tuple(es), Cons(RPar, k))) == Of(Reparse(Tuple(es)), k)
    decreases es, 1
  {
    hide Print, Bare, Reparse, ParseStarOrExpr, ReAll, ParseParenAtom, ParenTail;
    var k' := if |es| == 1 then Cons(Comma, Cons(RPar, k)) else Cons(RPar, k);
    BareTuple(es, Cons(RPar, k));
    TailJoin(Comma, es, 1, k');
    ReadElt(es[0], PrintTail(Comma, es[1..], 1, k'));
    ReTuple(es);
    if |es| > 1 {
      ReAllCons(es);
      ReadParenElts(es[1..], k);
      TailJoin(Comma, es[1..], 1, Cons(RPar, k));
      ParenTupleGlue(Bare(Tuple(es), Cons(RPar, k)), Reparse(es[0]),
        PrintJoin(Comma, es[1..], 1, Cons(RPar, k)), ReAll(es[1..]), k);
    } else {
      ReAllOne(es);
      ParenTailEnd(k);
      ParenTupleGlue(Bare(Tuple(es), Cons(RPar, k)), Reparse(es[0]), Cons(RPar, k), Some([]), k);
      if Reparse(es[0]).Some? {
        assert [Reparse(es[0]).value] + [] == [Reparse(es[0]).value];
      }
    }
  }

  lemma {:induction false} ReadElts(close: Tok, es: seq<Expr>, k: Toks)
    requires WfElts(es)
    requires close == RBrk || close == RBrc
    ensures EltsTail(close, PrintTail(Comma, es, 1, Cons(close, k))) == Of(ReAll(es), Cons(close, k))
    decreases es
  {
    hide Print, Reparse, ParseStarOrExpr;
    if es != [] {
      ReadElt(es[0], PrintTail(Comma, es[1..], 1, Cons(close, k)));
      ReadElts(close, es[1..], k);
    }
  }

  lemma {:induction false} ReadOr(vs: seq<Expr>, k: Toks)
    requires WfAll(vs) && Fits(3, k)
    ensures OrTail(PrintTail(Nm(KwOr), vs, 4, k)) == Of(ReAll(vs), k)
    decreases vs
  {
    hide Print, Reparse, ParseAnd, OrTail, ReAll, Wf;
    if vs == [] {
      OrEnd(k);
      ReAllEmpty();
    } else {
      var rest := PrintTail(Nm(KwOr), vs[1..], 4, k);
      ReadOr(vs[1..], k);
      PrintThenParse(vs[0], 4, 4, rest);
      ReAllCons(vs);
      OrNext(Print(vs[0], 4, rest), Reparse(vs[0]), rest, ReAll(vs[1..]), k);
    }
  }

  lemma OrEnd(k: Toks)
    requires !IsKw(k, KwOr)
    ensures OrTail(k) == Ok([], k)
  {
  }

  lemma OrNext(t: Toks, v: Option<Expr>, rest: Toks, vs: Option<seq<Expr>>, k: Toks)
    requires ParseAnd(t) == Of(v, rest) && OrTail(rest) == Of(vs, k)
    ensures OrTail(Cons(Nm(KwOr), t)) == match Both(v, vs) case None => Err case Some(x) => Ok([x.0] + x.1, k)
  {
    hide ParseAnd;
  }

  lemma {:induction false} ReadAnd(vs: seq<Expr>, k: Toks)
    requires WfAll(vs) && Fits(4, k)
    ensures AndTail(PrintTail(Nm(KwAnd), vs, 5, k)) == Of(ReAll(vs), k)
    decreases vs
  {
    hide Print, Reparse, ParseNot, AndTail, ReAll, Wf;
    if vs == [] {
      AndEnd(k);
      ReAllEmpty();
    } else {
      var rest := PrintTail(Nm(KwAnd), vs[1..], 5, k);
      ReadAnd(vs[1..], k);
      PrintThenParse(vs[0], 5, 5, rest);
      ReAllCons(vs);
      AndNext(Print(vs[0], 5, rest), Reparse(vs[0]), rest, ReAll(vs[1..]), k);
    }
  }

  lemma AndEnd(k: Toks)
    requires !IsKw(k, KwAnd)
    ensures AndTail(k) == Ok([], k)
  {
  }

  lemma AndNext(t: Toks, v: Option<Expr>, rest: Toks, vs: Option<seq<Expr>>, k: Toks)
    requires ParseNot(t) == Of(v, rest) && AndTail(rest) == Of(vs, k)
    ensures AndTail(Cons(Nm(KwAnd), t)) == match Both(v, vs) case None => Err case Some(x) => Ok([x.0] + x.1, k)
  {
    hide ParseNot;
  }

  lemma CmpAtSym(op: CmpOp, k: Toks)
    requires !IsKw(k, KwNot)
    ensures CmpAt(CmpSym(op, k)) == Some((op, k))
  {
  }

  lemma {:induction false} ReadComparisons(cs: seq<Comparison>, k: Toks)
    requires WfComparisons(cs) && Fits(6, k)
    ensures CompareTail(PrintComparisons(cs, k)) == Of(ReComparisons(cs), k)
    ensures Fits(7, PrintComparisons(cs, k))
    decreases cs
  {
    hide PrintComparison, Reparse, ParseBin, Print;
    if cs != [] {
      ReadComparisons(cs[1..], k);
      ReadComparison(cs[0], PrintComparisons(cs[1..], k));
    }
  }

  lemma {:induction false} ReadComparison(c: Comparison, k: Toks)
    requires WfComparison(c) && Binds(k) <= 6
    ensures Binds(PrintComparison(c, k)) == 6
    ensures CmpAt(PrintComparison(c, k)) == Some((c.op, Print(c.right, 7, k)))
    ensures ParseBin(7, Print(c.right, 7, k)) == Of(Reparse(c.right), k)
    decreases c
  {
    hide Print, Reparse, ParseBin, Binds, CmpAt;
    ComparisonHead(c, k);
    PrintThenParse(c.right, 7, 7, k);
    ComparisonOperand(Print(c.right, 7, k), Reparse(c.right), k);
  }

  lemma ComparisonHead(c: Comparison, k: Toks)
    requires WfComparison(c)
    ensures Binds(PrintComparison(c, k)) == 6
    ensures CmpAt(PrintComparison(c, k)) == Some((c.op, Print(c.right, 7, k)))
  {
    hide Print;
    HeadPrint(c.right, 7, k);
    CmpAtSym(c.op, Print(c.right, 7, k));
  }

  lemma ComparisonOperand(t: Toks, x: Option<Expr>, k: Toks)
    requires ParseAt(7, t) == Cont(7, Of(x, k)) && Binds(k) <= 6
    ensures ParseBin(7, t) == Of(x, k)
  {
    if x.Some? {
      Stops(7, x.value, k);
    }
  }

  lemma DictStarItem(t: Toks)
    ensures ParseDictItem(Cons(DStar, t)) ==
      match ParseExpr(t) case Err => Err case Ok(v, r) => Ok(DictItem(None, v), r)
  {
    hide ParseExpr;
  }

  lemma DictItemGlue(t: Toks, key: Option<Expr>, v: Toks)
    requires !At0(t, DStar) && ParseExpr(t) == Of(key, Cons(Colon, v))
    ensures ParseDictItem(t) ==
      if key.None? then Err
      else match ParseExpr(v) case Err => Err case Ok(x, r) => Ok(DictItem(key, x), r)
  {
    hide ParseExpr;
  }

  lemma {:induction false} ReadItem(it: DictItem, k: Toks)
    requires WfItem(it) && Fits(1, k)
    ensures ParseDictItem(PrintItem(it, k)) == Of(ReItem(it), k)
    decreases it
  {
    hide Print, Reparse, ParseExpr;
    ReItemParts(it);
    if it.key.None? {
      ReadExpr(it.value, 7, k);
      DictStarItem(Print(it.value, 7, k));
    } else {
      var v := Print(it.value, 1, k);
      var u := Print(it.key.value, 1, Cons(Colon, v));
      ReadExpr(it.value, 1, k);
      ReadExpr(it.key.value, 1, Cons(Colon, v));
      DictItemGlue(u, Reparse(it.key.value), v);
    }
  }

  lemma {:induction false} ReadItems(items: seq<DictItem>, k: Toks)
    requires WfItems(items)
    ensures DictTail(PrintItems(items, false, Cons(RBrc, k))) == Of(ReItems(items), Cons(RBrc, k))
    decreases items
  {
    hide Print, PrintItem, Reparse, ReItem, ReItems, ParseExpr, ParseDictItem, DictTail;
    ReItemsCons(items);
    if items == [] {
      DictEnd(k);
    } else {
      var rest := PrintItems(items[1..], false, Cons(RBrc, k));
      ReadItem(items[0], rest);
      ItemStart(items[0], rest);
      ReadItems(items[1..], k);
      DictMore(PrintItem(items[0], rest));
    }
  }

  lemma DictEnd(k: Toks)
    ensures DictTail(Cons(RBrc, k)) == Ok([], Cons(RBrc, k))
  {
  }

  lemma DictMore(t: Toks)
    requires !At0(t, RBrc)
    ensures DictTail(Cons(Comma, t)) ==
      match ParseDictItem(t)
      case Err => Err
      case Ok(it, r1) => match DictTail(r1) case Err => Err case Ok(its, r2) => Ok([it] + its, r2)
  {
    hide ParseDictItem;
  }

  lemma ItemStart(it: DictItem, k: Toks)
    requires WfItem(it)
    ensures PrintItem(it, k).Cons? && PrintItem(it, k).hd != RBrc && PrintItem(it, k).hd != RPar
  {
    if it.key.Some? {
      HeadPrint(it.key.value, 1, Cons(Colon, Print(it.value, 1, k)));
    }
  }

  function OfCall(args: Option<seq<Expr>>, kws: Option<seq<Keyword>>, k: Toks): Res<CallArgs> {
    if args.None? || kws.None? then Err else Ok(CallArgs(args.value, kws.value), k)
  }

  lemma {:induction false} ReadKeyword(kw: Keyword, empty: bool, k: Toks)
    requires WfKeyword(kw) && Fits(1, k)
    ensures CallTail(empty, PrintKeyword(kw, k)) ==
            match ReKeyword(kw) case None => Err case Some(kw') => CallNext(CallArgs([], [kw']), k)
    ensures ArgHead(PrintKeyword(kw, k))
    decreases kw
  {
    hide Print, Reparse, ParseExpr, CallTail, CallNext;
    var t := Print(kw.value, 1, k);
    ReadExpr(kw.value, 1, k);
    if kw.arg.Some? {
      NamedArgument(kw.arg.value, empty, t);
    } else {
      MappedArgument(empty, t);
    }
  }

  lemma NamedArgument(a: string, empty: bool, t: Toks)
    ensures CallTail(empty, Cons(Nm(Ident(a)), Cons(Assign, t))) ==
      match ParseExpr(t) case Err => Err case Ok(v, r) => CallNext(CallArgs([], [Keyword(Some(a), v)]), r)
  {
    hide ParseExpr, CallNext;
  }

  lemma MappedArgument(empty: bool, t: Toks)
    ensures CallTail(empty, Cons(DStar, t)) ==
      match ParseExpr(t) case Err => Err case Ok(v, r) => CallNext(CallArgs([], [Keyword(None, v)]), r)
  {
    hide ParseExpr, CallNext;
  }

  lemma CallMore(a: CallArgs, t: Toks)
    requires ArgHead(t)
    ensures CallNext(a, Cons(Comma, t)) ==
      match CallTail(false, t)
      case Err => Err
      case Ok(b, r) => Ok(CallArgs(a.args + b.args, a.keywords + b.keywords), r)
  {
    hide CallTail;
  }

  lemma CallEnd(a: CallArgs, k: Toks)
    ensures CallNext(a, Cons(RPar, k)) == Ok(a, k)
  {
  }

  lemma {:induction false} ReadKeywords(kws: seq<Keyword>, empty: bool, k: Toks)
    requires kws != [] && WfKeywords(kws)
    ensures CallTail(empty, PrintKeywords(kws, true, Cons(RPar, k))) == OfCall(Some([]), ReKeywords(kws), k)
    decreases kws, 0
  {
    hide Print, Reparse, CallTail, PrintKeyword, ReKeyword, CallNext;
    var rest := PrintKeywords(kws[1..], false, Cons(RPar, k));
    ReadKeyword(kws[0], empty, rest);
    if kws[1..] != [] {
      var more := PrintKeywords(kws[1..], true, Cons(RPar, k));
      ReadKeywords(kws[1..], false, k);
      ReadKeyword(kws[1..][0], false, PrintKeywords(kws[1..][1..], false, Cons(RPar, k)));
      assert rest == Cons(Comma, more);
      if ReKeyword(kws[0]).Some? {
        CallMore(CallArgs([], [ReKeyword(kws[0]).value]), more);
        var none: seq<Expr> := [];
        assert none + none == none;
      }
    } else {
      assert ReKeywords(kws[1..]) == Some([]);
      if ReKeyword(kws[0]).Some? {
        assert [ReKeyword(kws[0]).value] + [] == [ReKeyword(kws[0]).value];
        CallEnd(CallArgs([], [ReKeyword(kws[0]).value]), k);
      }
    }
  }

  lemma CallStar(empty: bool, t: Toks)
    ensures CallTail(empty, Cons(Star, t)) ==
      match ParseExpr(t) case Err => Err case Ok(v, r) => CallNext(CallArgs([Starred(v)], []), r)
  {
    hide ParseExpr, CallNext;
  }

  lemma CallPositional(empty: bool, t: Toks)
    requires HeadOk(1, t) && !NameThen(t, Assign)
    requires match ParseExpr(t) case Err => true case Ok(_, r) => At0(r, Comma) || At0(r, RPar)
    ensures CallTail(empty, t) ==
      match ParseExpr(t) case Err => Err case Ok(v, r) => CallNext(CallArgs([v], []), r)
  {
    hide ParseExpr, CallNext;
  }

  /** One positional argument: never mistaken for a keyword or the start of a generator. */
  lemma {:induction false} ReadArg(e: Expr, empty: bool, k: Toks)
    requires WfElt(e) && (At0(k, Comma) || At0(k, RPar))
    ensures CallTail(empty, Print(e, 1, k)) ==
      match Reparse(e) case None => Err case Some(v) => CallNext(CallArgs([v], []), k)
    ensures ArgHead(Print(e, 1, k))
    decreases e, 26
  {
    hide Print, Reparse, ParseExpr, CallNext, CallTail;
    if e.Starred? {
      ReadExpr(e.starred, 16, k);
      PrintStarred(e.starred, 1, k);
      ReStarred(e.starred);
      CallStar(empty, Print(e.starred, 16, k));
    } else {
      ReadExpr(e, 1, k);
      HeadPrint(e, 1, k);
      CallPositional(empty, Print(e, 1, k));
    }
  }

  /** Positional arguments, when the keywords after them are read as given. */
  lemma {:induction false} ReadArgs(args: seq<Expr>, kws: seq<Keyword>, empty: bool, k: Toks)
    requires args != [] && WfElts(args)
    requires KeywordsRead(kws, k)
    ensures CallTail(empty, PrintJoin(Comma, args, 1, PrintKeywords(kws, false, Cons(RPar, k)))) ==
            OfCall(ReAll(args), ReKeywords(kws), k)
    decreases args
  {
    hide Print, Reparse, ReAll, CallTail, CallNext, PrintKeyword, ReKeyword;
    var tail := PrintKeywords(kws, false, Cons(RPar, k));
    var rest := PrintTail(Comma, args[1..], 1, tail);
    TailJoin(Comma, args, 1, tail);
    ReadArg(args[0], empty, rest);
    if args[1..] != [] {
      ReAllCons(args);
      ReadArgs(args[1..], kws, false, k);
      TailJoin(Comma, args[1..], 1, tail);
      ReadArg(args[1..][0], false, PrintTail(Comma, args[1..][1..], 1, tail));
      if Reparse(args[0]).Some? {
        CallMore(CallArgs([Reparse(args[0]).value], []), PrintJoin(Comma, args[1..], 1, tail));
        assert ReKeywords(kws).Some? ==> [] + ReKeywords(kws).value == ReKeywords(kws).value;
      }
    } else {
      ReAllOne(args);
      if Reparse(args[0]).Some? {
        var one := CallArgs([Reparse(args[0]).value], []);
        if kws != [] {
          assert tail == Cons(Comma, PrintKeywords(kws, true, Cons(RPar, k)));
          CallMore(one, PrintKeywords(kws, true, Cons(RPar, k)));
          assert one.args + [] == one.args;
          assert ReKeywords(kws).Some? ==> [] + ReKeywords(kws).value == ReKeywords(kws).value;
        } else {
          CallEnd(one, k);
        }
      }
    }
  }

  predicate KeywordsRead(kws: seq<Keyword>, k: Toks) {
    kws != [] ==>
      var t := PrintKeywords(kws, true, Cons(RPar, k));
      t.Cons? && t.hd != RPar && forall empty :: CallTail(empty, t) == OfCall(Some([]), ReKeywords(kws), k)
  }

  lemma {:induction false} KeywordsAreRead(kws: seq<Keyword>, k: Toks)
    requires WfKeywords(kws)
    ensures KeywordsRead(kws, k)
    decreases kws, 1
  {
    hide Print, CallTail, PrintKeyword, ReKeywords;
    if kws != [] {
      ReadKeywords(kws, true, k);
      ReadKeywords(kws, false, k);
      ReadKeyword(kws[0], false, PrintKeywords(kws[1..], false, Cons(RPar, k)));
      assert PrintKeywords(kws, true, Cons(RPar, k)) ==
             PrintKeyword(kws[0], PrintKeywords(kws[1..], false, Cons(RPar, k)));
    }
  }

  lemma {:induction false} ReadCallArgs(e: Expr, k: Toks)
    requires e.Call? && WfElts(e.args) && WfKeywords(e.keywords)
    ensures ParseCallArgs(PrintJoin(Comma, e.args, 1, PrintKeywords(e.keywords, e.args == [], Cons(RPar, k)))) ==
            OfCall(ReAll(e.args), ReKeywords(e.keywords), k)
    decreases e, 0
  {
    hide Print, Reparse, CallTail, PrintKeyword, ReKeyword, KeywordsRead;
    var args, kws := e.args, e.keywords;
    KeywordsAreRead(kws, k);
    if args != [] {
      ReadArgs(args, kws, true, k);
      var tail := PrintKeywords(kws, false, Cons(RPar, k));
      ReadArg(args[0], true, PrintTail(Comma, args[1..], 1, tail));
    } else {
      NoArgs(kws, k);
    }
  }

  lemma NoArgs(kws: seq<Keyword>, k: Toks)
    requires KeywordsRead(kws, k)
    ensures ParseCallArgs(PrintKeywords(kws, true, Cons(RPar, k))) == OfCall(Some([]), ReKeywords(kws), k)
  {
    hide CallTail, PrintKeyword, ReKeyword;
  }

  // ----- subscripts -----

  predicate SubEnd(k: Toks) {
    At0(k, Comma) || At0(k, RBrk)
  }

  /** What an expression does not begin with. */
  lemma HeadIsNot(n: int, t: Toks)
    requires HeadOk(n, t)
    ensures !At0(t, Colon) && !At0(t, RBrk) && !At0(t, Comma)
  {
  }

  lemma {:induction false} ReadPart(o: Option<Expr>, k: Toks)
    requires WfOpt(o) && (SubEnd(k) || At0(k, Colon))
    ensures ParseSlicePart(PrintOpt(o, k)) == Of(ReOpt(o), k)
    decreases o
  {
    hide Print, Reparse, ParseExpr, Wf, HeadOk, ParseStarOrExpr, Starter;
    if o.Some? {
      ReadExpr(o.value, 1, k);
      HeadIsNot(1, Print(o.value, 1, k));
    }
  }

  lemma {:induction false} ReadStep(o: Option<Expr>, k: Toks)
    requires WfOpt(o) && SubEnd(k)
    ensures ParseStep(PrintOpt(o, k)) == Of(ReOpt(o), k)
    decreases o
  {
    hide Print, Reparse, ParseExpr;
    if o.Some? {
      ReadExpr(o.value, 1, k);
    }
  }

  function OfSlice(lo: Option<Expr>, up: Option<Option<Expr>>, st: Option<Option<Expr>>, k: Toks): Res<Expr> {
    if up.None? || st.None? then Err else Ok(Slice(lo, up.value, st.value), k)
  }

  lemma {:induction false} ReadSliceRest(e: Expr, lo: Option<Expr>, k: Toks)
    requires e.Slice? && WfSub(e) && SubEnd(k)
    ensures ParseSlice(lo, Cons(Colon, PrintOpt(e.upper, PrintStep(e.step, k)))) ==
            OfSlice(lo, ReOpt(e.upper), ReOpt(e.step), k)
    decreases e, 0
  {
    hide Print, PrintOpt, ReOpt, ParseSlicePart, ParseStep;
    ReadPart(e.upper, PrintStep(e.step, k));
    ReOptNone();
    if e.step.Some? {
      ReadStep(e.step, k);
      assert PrintStep(e.step, k) == Cons(Colon, PrintOpt(e.step, k)) by {
        OptSome(e.step.value, k);
      }
    }
  }

  lemma ReOptNone()
    ensures ReOpt(None) == Some(None)
  {
  }

  lemma OptSome(x: Expr, k: Toks)
    ensures PrintOpt(Some(x), k) == Print(x, 1, k)
  {
    hide Print;
  }

  lemma PrintSliceExpr(lo: Option<Expr>, up: Option<Expr>, st: Option<Expr>, p: int, k: Toks)
    requires p <= 16
    ensures Print(Slice(lo, up, st), p, k) == PrintOpt(lo, Cons(Colon, PrintOpt(up, PrintStep(st, k))))
  {
    hide PrintOpt, PrintStep;
    assert Print(Slice(lo, up, st), p, k) == Bare(Slice(lo, up, st), k);
  }

  lemma ReSliceExpr(lo: Option<Expr>, up: Option<Expr>, st: Option<Expr>)
    ensures Reparse(Slice(lo, up, st)) ==
      match Three(ReOpt(lo), ReOpt(up), ReOpt(st)) case None => None case Some(x) => Some(Slice(x.0, x.1, x.2))
  {
    hide ReAll, ReOpt, ReArgs, ReItems, ReGens, ReComparisons, ReKeywords, ReSlice;
  }

  lemma {:induction false} ReadSliceItem(e: Expr, k: Toks)
    requires e.Slice? && WfSub(e) && SubEnd(k)
    ensures ParseSubscriptItem(Print(e, 1, k)) == Of(Reparse(e), k)
    ensures !At0(Print(e, 1, k), RBrk)
    decreases e, 1
  {
    hide Print, PrintOpt, PrintStep, Reparse, ReOpt, ParseExpr, ParseSlice;
    var lo, up, st := e.lower, e.upper, e.step;
    var t := Cons(Colon, PrintOpt(up, PrintStep(st, k)));
    PrintSliceExpr(lo, up, st, 1, k);
    ReSliceExpr(lo, up, st);
    if lo.None? {
      OptNone(t);
      ReOptNone();
      ReadSliceRest(e, None, k);
    } else {
      OptSome(lo.value, t);
      ReadExpr(lo.value, 1, t);
      ReOptSome(lo.value);
      if Reparse(lo.value).Some? {
        ReadSliceRest(e, Some(Reparse(lo.value).value), k);
      }
    }
  }

  lemma OptNone(k: Toks)
    ensures PrintOpt(None, k) == k
  {
  }

  lemma ReOptSome(x: Expr)
    ensures ReOpt(Some(x)) == match Reparse(x) case None => None case Some(x') => Some(Some(x'))
  {
    hide Reparse;
  }

  lemma StarItem(t: Toks)
    ensures ParseSubscriptItem(Cons(Star, t)) == match ParseExpr(t) case Err => Err case Ok(v, r) => Ok(Starred(v), r)
  {
    hide ParseExpr;
  }

  lemma PlainItem(t: Toks)
    requires HeadOk(1, t) && (match ParseExpr(t) case Err => true case Ok(_, r) => !At0(r, Colon))
    ensures ParseSubscriptItem(t) == ParseExpr(t)
    ensures !At0(t, RBrk)
  {
    hide ParseExpr;
  }

  lemma {:induction false} ReadSub(e: Expr, k: Toks)
    requires WfSub(e) && SubEnd(k)
    ensures ParseSubscriptItem(Print(e, 1, k)) == Of(Reparse(e), k)
    ensures !At0(Print(e, 1, k), RBrk)
    decreases e, 30
  {
    hide Print, Reparse, ParseExpr, ParseSlice, ParseSubscriptItem;
    if e.Slice? {
      ReadSliceItem(e, k);
    } else if e.Starred? {
      ReadExpr(e.starred, 16, k);
      PrintStarred(e.starred, 1, k);
      ReStarred(e.starred);
      StarItem(Print(e.starred, 16, k));
    } else {
      ReadExpr(e, 1, k);
      PlainItem(Print(e, 1, k));
    }
  }

  lemma {:induction false} ReadSubs(es: seq<Expr>, k: Toks)
    requires WfSubs(es)
    ensures SubscriptTail(PrintTail(Comma, es, 1, Cons(RBrk, k))) == Of(ReAll(es), Cons(RBrk, k))
    decreases es
  {
    hide Print, Reparse, ParseSubscriptItem;
    if es != [] {
      ReadSub(es[0], PrintTail(Comma, es[1..], 1, Cons(RBrk, k)));
      ReadSubs(es[1..], k);
    }
  }

  lemma {:induction false} ReadSlice(s: Expr, k: Toks)
    requires WfSlice(s)
    ensures ParseSubscriptBody(PrintSlice(s, Cons(RBrk, k))) == Of(ReSlice(s), Cons(RBrk, k))
    decreases s, 31
  {
    hide Print, Reparse, ReAll, ParseSubscriptItem, SubscriptTail;
    if s.Tuple? && |s.telts| > 1 {
      var es := s.telts;
      TailJoin(Comma, es, 1, Cons(RBrk, k));
      ReadSub(es[0], PrintTail(Comma, es[1..], 1, Cons(RBrk, k)));
      ReadSubs(es[1..], k);
      TailJoin(Comma, es[1..], 1, Cons(RBrk, k));
      ReTuple(es);
      ReAllCons(es);
    } else if s.Tuple? && |s.telts| == 1 && s.telts[0].Slice? {
      SliceTupleRejected(s, k);
    } else if s.Slice? {
      ReadSub(s, Cons(RBrk, k));
      ReNotStarred(s);
    } else {
      WfOfSlice(s);
      ReadSub(s, Cons(RBrk, k));
      ReNotStarred(s);
    }
  }

  lemma WfOfSlice(s: Expr)
    requires WfSlice(s) && !s.Slice?
    requires s.Tuple? ==> |s.telts| <= 1 && (s.telts != [] ==> !s.telts[0].Slice?)
    ensures Wf(s) && WfSub(s)
  {
    if s.Tuple? && s.telts != [] {
      assert WfSub(s.telts[0]) && s.telts[1..] == [];
      assert WfElt(s.telts[0]);
    }
  }

  lemma ReNotStarred(e: Expr)
    requires !e.Starred?
    ensures Reparse(e).Some? ==> !Reparse(e).value.Starred?
  {
  }

  /** `a[1:2,]` is printed `a[(1:2,)]`, and the parser takes no slice inside parentheses. */
  lemma {:induction false} SliceTupleRejected(s: Expr, k: Toks)
    requires s.Tuple? && |s.telts| == 1 && s.telts[0].Slice? && WfSub(s.telts[0])
    ensures ParseSubscriptItem(Print(s, 1, Cons(RBrk, k))) == Err
    decreases s, 1
  {
    hide Print, Bare, PrintOpt, PrintStep, ParseExpr, ParseStarOrExpr, ParseParenAtom, ParseAt, Cont;
    var e := s.telts[0];
    var k1 := Cons(RBrk, k);
    var k2 := Cons(Comma, Cons(RPar, k1));
    var t := PrintOpt(e.lower, Cons(Colon, PrintOpt(e.upper, PrintStep(e.step, k2))));
    assert Print(s, 1, k1) == Cons(LPar, t) by {
      WrappedTuple1(s, k1);
      PrintSliceExpr(e.lower, e.upper, e.step, 1, k2);
    }
    ColonRejected(e, t, PrintOpt(e.upper, PrintStep(e.step, k2)));
    Levels(Cons(LPar, t), Err);
    assert ParseAtom(Cons(LPar, t)) == Err;
    Down(16, 1, Cons(LPar, t), None, k1);
  }

  lemma WrappedTuple1(s: Expr, k: Toks)
    requires s.Tuple? && |s.telts| == 1
    ensures Print(s, 1, k) == Cons(LPar, Print(s.telts[0], 1, Cons(Comma, Cons(RPar, k))))
  {
    hide Print, Bare;
    assert Print(s, 1, k) == Wrapped(s, k) by { PrintWrapped(s, k); }
    BareTuple(s.telts, Cons(RPar, k));
    TailJoin(Comma, s.telts, 1, Cons(Comma, Cons(RPar, k)));
    assert PrintTail(Comma, s.telts[1..], 1, Cons(Comma, Cons(RPar, k))) == Cons(Comma, Cons(RPar, k));
  }

  lemma PrintWrapped(s: Expr, k: Toks)
    requires s.Tuple? && |s.telts| == 1
    ensures Print(s, 1, k) == Wrapped(s, k)
  {
    hide Bare;
  }

  lemma ColonNext(t: Toks, r: Option<Expr>, u: Toks)
    requires !At0(t, RPar) && ParseStarOrExpr(t) == Of(r, Cons(Colon, u))
    ensures ParseParenAtom(t) == Err
  {
    hide ParseStarOrExpr;
  }

  lemma NotParen(t: Toks)
    requires !At0(t, RPar) && ParseStarOrExpr(t) == Err
    ensures ParseParenAtom(t) == Err
  {
    hide ParseStarOrExpr;
  }

  lemma {:induction false} ColonRejected(e: Expr, t: Toks, u: Toks)
    requires e.Slice? && WfSub(e)
    requires t == PrintOpt(e.lower, Cons(Colon, u))
    ensures ParseParenAtom(t) == Err
    decreases e, 0
  {
    hide Print, ParseExpr, ParseStarOrExpr, ParseAt, Cont, Reparse;
    if e.lower.Some? {
      ReadExpr(e.lower.value, 1, Cons(Colon, u));
      OptSome(e.lower.value, Cons(Colon, u));
      ColonNext(t, Reparse(e.lower.value), u);
    } else {
      OptNone(Cons(Colon, u));
      Levels(t, Err);
      assert ParseAtom(t) == Err;
      Down(16, 1, t, None, End);
      StarlessElt(t);
      NotParen(t);
    }
  }

  // ----- comprehension clauses and their targets -----

  predicate Closer(k: Toks) {
    At0(k, RPar) || At0(k, RBrk) || At0(k, RBrc)
  }

  predicate AfterGen(k: Toks) {
    Closer(k) || CompForStart(k)
  }

  lemma {:induction false} ReadIfs(ifs: seq<Expr>, k: Toks)
    requires WfAll(ifs) && AfterGen(k)
    ensures IfsTail(PrintIfs(ifs, k)) == Of(ReAll(ifs), k)
    ensures Fits(3, PrintIfs(ifs, k))
    decreases ifs
  {
    hide Print, Reparse, ParseAnd;
    if ifs != [] {
      ReadIfs(ifs[1..], k);
      ReadOr3(ifs[0], PrintIfs(ifs[1..], k));
    }
  }

  lemma {:induction false} ReadOr3(e: Expr, k: Toks)
    requires Wf(e) && Fits(3, k)
    ensures ParseOr(Print(e, 3, k)) == Of(Reparse(e), k)
    decreases e, 21
  {
    hide Print, Reparse, ParseAnd;
    PrintThenParse(e, 3, 3, k);
  }

  lemma {:induction false} ReadGen(g: Comprehension, k: Toks)
    requires WfGen(g) && AfterGen(k)
    ensures CompForStart(PrintGen(g, k))
    ensures ParseGen(PrintGen(g, k)) == Of(ReGen(g), k)
    decreases g
  {
    hide Print, Reparse, ReTarget, ParseOr, ParseTargetList, ParseGen, CompForStart, IfsTail, PrintIfs, ReAll;
    var v := PrintIfs(g.ifs, k);
    var u := Print(g.iter, 3, v);
    ReadIfs(g.ifs, k);
    ReadOr3(g.iter, v);
    ReadTarget(g.target, Cons(Nm(KwIn), u));
    var t := Print(g.target, 0, Cons(Nm(KwIn), u));
    GenGlue(g.isAsync, t, ReTarget(g.target), u, Reparse(g.iter), v, ReAll(g.ifs), k);
  }

  lemma GenGlue(isAsync: bool, t: Toks, target: Option<Expr>, u: Toks, iter: Option<Expr>, v: Toks,
                ifs: Option<seq<Expr>>, k: Toks)
    requires Comes(ParseTargetList(t), target, Cons(Nm(KwIn), u))
    requires ParseOr(u) == Of(iter, v) && IfsTail(v) == Of(ifs, k)
    ensures var body := Cons(Nm(KwFor), t);
            var y := if isAsync then Cons(Nm(KwAsync), body) else body;
            && CompForStart(y)
            && ParseGen(y) ==
                    match Three(target, iter, ifs)
                    case None => Err
                    case Some(x) => Ok(Comprehension(x.0, x.1, x.2, isAsync), k)
  {
    hide ParseTargetList, ParseOr, IfsTail;
  }

  lemma {:induction false} ReadGens(gs: seq<Comprehension>, k: Toks)
    requires WfGens(gs) && Closer(k)
    ensures AfterGen(PrintGens(gs, k))
    ensures gs != [] ==> CompForStart(PrintGens(gs, k))
    ensures ParseGens(PrintGens(gs, k)) == Of(ReGens(gs), k)
    decreases gs
  {
    hide PrintGen, ReGen, ParseGen;
    if gs != [] {
      ReadGens(gs[1..], k);
      ReadGen(gs[0], PrintGens(gs[1..], k));
    }
  }

  /** A target ends where the parser expects `in`, a comma or a closing bracket. */
  predicate TargetEnd(k: Toks) {
    IsKw(k, KwIn) || At0(k, Comma) || At0(k, RBrk)
  }

  /** A trailer begins, where a target should have ended. */
  predicate Trail(k: Toks) {
    At0(k, Dot) || At0(k, LPar) || At0(k, LBrk)
  }

  /** The target parser read o and stopped at k, or it failed or stopped at a trailer. */
  predicate Comes<T(==)>(r: Res<T>, o: Option<T>, k: Toks) {
    if o.Some? then r == Ok(o.value, k) else r.Ok? ==> Trail(r.rest)
  }

  predicate TargetStart(t: Toks) {
    t.Cons? && (Starter(t.hd) || t.hd == Star)
  }

  lemma {:induction false} ReadTarget(e: Expr, k: Toks)
    requires WfTarget(e) && IsKw(k, KwIn)
    ensures Comes(ParseTargetList(Print(e, 0, k)), ReTarget(e), k)
    decreases e, 28
  {
    hide Print, ReTargetAtom, ParseTargetAtom, TargetListTail, ReTargets;
    if e.Tuple? && |e.telts| >= 2 {
      var es := e.telts;
      assert Print(e, 0, k) == Print(es[0], 1, PrintTail(Comma, es[1..], 1, k)) by {
        BareAt(e, 0, k);
        BareTuple(es, k);
        TailJoin(Comma, es, 1, k);
      }
      ReTargetsCons(es);
      ReadTargetTail(es[1..], k);
      TailJoin(Comma, es[1..], 1, k);
      ReadTargetAtom(es[0], 1, PrintTail(Comma, es[1..], 1, k));
    } else {
      ReadTargetAtom(e, 0, k);
    }
  }

  lemma BareAt(e: Expr, p: int, k: Toks)
    requires !Parens(e, p)
    ensures Print(e, p, k) == Bare(e, k)
  {
    hide Bare;
  }

  lemma ReTargetsCons(es: seq<Expr>)
    ensures ReTargets([]) == Some([])
    ensures es != [] ==>
      ReTargets(es) ==
      match Both(ReTargetAtom(es[0]), ReTargets(es[1..])) case None => None case Some(x) => Some([x.0] + x.1)
  {
    hide ReTargetAtom;
  }

  lemma {:induction false} ReadTargetTail(es: seq<Expr>, k: Toks)
    requires WfTargets(es) && IsKw(k, KwIn)
    ensures Comes(TargetListTail(PrintTail(Comma, es, 1, k)), ReTargets(es), k)
    ensures TargetEnd(PrintTail(Comma, es, 1, k))
    decreases es
  {
    hide Print, ReTargets, ReTargetAtom, ParseTargetAtom, TargetListTail, Starter;
    ReTargetsCons(es);
    if es == [] {
      TailStops(k);
    } else {
      var rest := PrintTail(Comma, es[1..], 1, k);
      ReadTargetTail(es[1..], k);
      ReadTargetAtom(es[0], 1, rest);
      TailGoesOn(Print(es[0], 1, rest), ReTargetAtom(es[0]), rest, ReTargets(es[1..]), k);
    }
  }

  lemma TailStops(k: Toks)
    ensures !At0(k, Comma) ==> TargetListTail(k) == Ok([], k)
  {
  }

  lemma TailGoesOn(t: Toks, x: Option<Expr>, rest: Toks, xs: Option<seq<Expr>>, k: Toks)
    requires TargetStart(t) && Comes(ParseTargetAtom(t), x, rest) && Comes(TargetListTail(rest), xs, k)
    ensures Comes(TargetListTail(Cons(Comma, t)),
            match Both(x, xs)
            case None => None
            case Some(p) => Some([p.0] + p.1), k)
  {
    hide ParseTargetAtom, TargetListTail, TargetStart;
    var r := ParseTargetAtom(t);
    TailMore(t);
    if r.Ok? {
      TailStops(r.rest);
    }
  }

  lemma TailMore(t: Toks)
    requires TargetStart(t)
    ensures TargetListTail(Cons(Comma, t)) ==
      match ParseTargetAtom(t)
      case Err => Err
      case Ok(e, r1) => match TargetListTail(r1) case Err => Err case Ok(es, r2) => Ok([e] + es, r2)
  {
    hide ParseTargetAtom;
  }

  /** Targets of a list display, up to the closing bracket. */
  lemma {:induction false} ReadTargetElts(es: seq<Expr>, k: Toks)
    requires WfTargets(es)
    ensures Comes(TargetElts(PrintJoin(Comma, es, 1, Cons(RBrk, k))), ReTargets(es), Cons(RBrk, k))
    decreases es
  {
    hide Print, ReTargets, ReTargetAtom, ParseTargetAtom, TargetElts, Starter;
    ReTargetsCons(es);
    if es == [] {
      TargetEltsEnd(k);
    } else {
      var rest := PrintTail(Comma, es[1..], 1, Cons(RBrk, k));
      TailJoin(Comma, es, 1, Cons(RBrk, k));
      if es[1..] != [] {
        TailJoin(Comma, es[1..], 1, Cons(RBrk, k));
      }
      ReadTargetElts(es[1..], k);
      ReadTargetAtom(es[0], 1, rest);
      EltsGoOn(Print(es[0], 1, rest), ReTargetAtom(es[0]), rest, es[1..] == [], ReTargets(es[1..]), k);
    }
  }

  lemma EltsGoOn(t: Toks, x: Option<Expr>, rest: Toks, last: bool, xs: Option<seq<Expr>>, k: Toks)
    requires TargetStart(t) && Comes(ParseTargetAtom(t), x, rest)
    requires if last then rest == Cons(RBrk, k) && xs == Some([])
             else At0(rest, Comma) && Comes(TargetElts(Rest(rest)), xs, Cons(RBrk, k))
    ensures Comes(TargetElts(t), match Both(x, xs) case None => None case Some(p) => Some([p.0] + p.1), Cons(RBrk, k))
  {
    hide ParseTargetAtom;
    if x.Some? && last {
      assert [x.value] + [] == [x.value];
    }
  }

  lemma TargetStar(t: Toks, o: Option<Expr>, k: Toks)
    requires Comes(ParseTargetAtom(t), o, k)
    ensures Comes(ParseTargetAtom(Cons(Star, t)), match o case None => None case Some(x) => Some(Starred(x)), k)
  {
  }

  lemma TargetStops(r: Option<Expr>, k: Toks)
    requires TargetEnd(k)
    ensures match r case None => true case Some(v) => TargetTail(v, k) == Ok(v, k)
  {
  }

  lemma {:induction false} ReadTargetList(e: Expr, p: int, k: Toks)
    requires e.ListExpr? && WfTargets(e.lelts) && p <= 16
    ensures Comes(ParseTargetAtom(Print(e, p, k)), ReTargetAtom(e), k)
    ensures TargetStart(Print(e, p, k))
    decreases e, 25
  {
    hide Print, ReTargets, TargetElts, ParseTargetAtom;
    var es := e.lelts;
    PrintListAt(es, p, k);
    ReadTargetElts(es, k);
    TargetBrackets(PrintJoin(Comma, es, 1, Cons(RBrk, k)), ReTargets(es), k);
  }

  lemma TargetBrackets(t: Toks, es: Option<seq<Expr>>, k: Toks)
    requires Comes(TargetElts(t), es, Cons(RBrk, k))
    ensures ParseTargetAtom(Cons(LBrk, t)) == match es case None => Err case Some(xs) => Ok(ListExpr(xs), k)
  {
    hide TargetElts;
  }

  lemma {:induction false} ReadTargetTuple(e: Expr, p: int, k: Toks)
    requires e.Tuple? && WfElts(e.telts) && TargetEnd(k) && p <= 16
    requires |e.telts| >= 2 ==> 1 <= p
    ensures ParseTargetAtom(Print(e, p, k)) == Of(Reparse(e), k)
    ensures TargetStart(Print(e, p, k))
    decreases e, 19
  {
    hide Print, Bare, Reparse, ReAll, ParseParenAtom, TrailerTail;
    var es := e.telts;
    ReTuple(es);
    if es == [] {
      EmptyTuple(p, k);
      ReAllEmpty();
    } else {
      TupleAtom(es, k);
      PrintTuple(es, p, k);
    }
    TrailerStops(Reparse(e), k);
  }

  lemma {:induction false} ReadTargetAtom(e: Expr, p: int, k: Toks)
    requires WfTargetAtom(e) && TargetEnd(k) && p <= 16
    requires e.Tuple? && |e.telts| >= 2 ==> 1 <= p
    ensures Comes(ParseTargetAtom(Print(e, p, k)), ReTargetAtom(e), k)
    ensures TargetStart(Print(e, p, k))
    decreases e, 27
  {
    hide Print, Reparse, ReTargets, ParseTargetAtom, LeadsParen, ReChain, Starter;
    if e.Starred? {
      PrintStarred(e.starred, p, k);
      ReadTargetAtom(e.starred, 16, k);
      TargetStar(Print(e.starred, 16, k), ReTargetAtom(e.starred), k);
    } else if e.ListExpr? {
      ReadTargetList(e, p, k);
    } else if e.Tuple? {
      ReadTargetTuple(e, p, k);
    } else if e.Name? {
      ChainName(e.id, p, k);
      IdentStarts(e.id, k);
      TargetStops(Some(e), k);
    } else {
      ReadTrailed(e, p, k);
    }
  }

  lemma IdentStarts(x: string, k: Toks)
    ensures TargetStart(Cons(Nm(Ident(x)), k))
  {
  }

  /** An attribute or a subscript as a target. */
  lemma {:induction false} ReadTrailed(e: Expr, p: int, k: Toks)
    requires (e.Attribute? || e.Subscript?) && Wf(e) && TargetEnd(k) && p <= 16
    ensures Comes(ParseTargetAtom(Print(e, p, k)), if LeadsParen(e) then Reparse(e) else ReChain(e), k)
    ensures TargetStart(Print(e, p, k))
    decreases e, 26
  {
    hide Print, Bare, Reparse, ParseTargetAtom, ParseTrailer, TrailerTail, TargetTail, LeadsParen, ReChain, Starter,
      Wf;
    BareAt(e, p, k);
    TrailedStarts(e, k);
    if LeadsParen(e) {
      NativeTrailer(e, k);
      TrailerStops(Reparse(e), k);
      ParenLeads(e, k);
      ParenTarget(Bare(e, k));
    } else {
      ReadChain(e, k);
      TargetStops(ReChain(e), k);
    }
  }

  lemma TrailedStarts(e: Expr, k: Toks)
    requires (e.Attribute? || e.Subscript?) && Wf(e)
    ensures TargetStart(Bare(e, k))
  {
    hide Bare, Wf;
    HeadBare(e, k);
  }

  lemma ParenTarget(t: Toks)
    requires At0(t, LPar)
    ensures ParseTargetAtom(t) == ParseTrailer(t)
  {
    hide TrailerTail, ParseParenAtom;
    assert ParseAtom(t) == ParseParenAtom(t.tl);
  }

  lemma {:induction false} ParenLeads(e: Expr, k: Toks)
    requires LeadsParen(e)
    ensures At0(Bare(e, k), LPar)
    decreases e, 0
  {
    hide Print, Bare, PrintAttrValue, PrintSlice;
    match e
    case Attribute(v, a) =>
      BareTrailed(e, k);
      if !(v.Constant? && v.c.CInt?) {
        FirstParen(v, Cons(Dot, Cons(Nm(Ident(a)), k)));
      }
    case Subscript(v, s) =>
      BareTrailed(e, k);
      FirstParen(v, Cons(LBrk, PrintSlice(s, Cons(RBrk, k))));
    case Call(f, args, kws) =>
      BareCall(f, args, kws, k);
      FirstParen(f, Cons(LPar, PrintJoin(Comma, args, P_TEST, PrintKeywords(kws, args == [], Cons(RPar, k)))));
    case _ => ParenForm(e, k);
  }

  lemma {:induction false} FirstParen(v: Expr, k: Toks)
    requires Parens(v, 16) || LeadsParen(v)
    ensures At0(Print(v, 16, k), LPar)
    decreases v, 1
  {
    hide Bare;
    if !Parens(v, 16) {
      ParenLeads(v, k);
    }
  }

  lemma ParenForm(e: Expr, k: Toks)
    requires e.GeneratorExp? || e.Yield? || e.YieldFrom? || (e.Tuple? && e.telts == [])
    ensures At0(Bare(e, k), LPar)
  {
    hide Print, PrintGens;
  }

  lemma BareTrailed(e: Expr, k: Toks)
    requires e.Attribute? || e.Subscript?
    ensures e.Attribute? ==>
      var k' := Cons(Dot, Cons(Nm(Ident(e.attr)), k));
      Bare(e, k) == if e.avalue.Constant? && e.avalue.c.CInt? then Cons(LPar, Print(e.avalue, 16, Cons(RPar, k')))
        else Print(e.avalue, 16, k')
    ensures e.Subscript? ==> Bare(e, k) == Print(e.svalue, 16, Cons(LBrk, PrintSlice(e.slice, Cons(RBrk, k))))
  {
    hide Print, PrintSlice;
  }

  lemma BareCall(f: Expr, args: seq<Expr>, kws: seq<Keyword>, k: Toks)
    ensures Bare(Call(f, args, kws), k) ==
            Print(f, 16, Cons(LPar, PrintJoin(Comma, args, P_TEST, PrintKeywords(kws, args == [], Cons(RPar, k)))))
  {
    hide Print, PrintJoin, PrintKeywords;
  }

  // ----- chains that begin without a parenthesis -----

  /** The target parser failed, or stopped at a trailer, or took the whole of a display. */
  predicate Off(r: Res<Expr>, k: Toks) {
    r.Ok? ==> r.rest == k || Trail(r.rest)
  }

  predicate ChainRead(r: Res<Expr>, o: Option<Expr>, k: Toks) {
    if o.Some? then r == TargetTail(o.value, k) else Off(r, k)
  }

  /** The primary that a chain begins with, and what follows it in the chain. */
  lemma {:induction false} ReadChain(e: Expr, k: Toks)
    requires Wf(e) && !Parens(e, 16) && !LeadsParen(e)
    ensures ChainRead(ParseTargetAtom(Bare(e, k)), ReChain(e), k)
    ensures (e.Attribute? || e.Subscript?) && ReChain(e).None? ==>
      var r := ParseTargetAtom(Bare(e, k)); r.Ok? ==> Trail(r.rest)
    decreases e, 24
  {
    hide Print, Bare, ParseTargetAtom, ParseSubscriptBody, PrintSlice, ReSlice, TargetTail;
    if e.Attribute? || e.Subscript? {
      var v := if e.Attribute? then e.avalue else e.svalue;
      var k' := if e.Attribute? then Cons(Dot, Cons(Nm(Ident(e.attr)), k))
        else Cons(LBrk, PrintSlice(e.slice, Cons(RBrk, k)));
      BareTrailed(e, k);
      BareAt(v, 16, k');
      ReadChain(v, k');
      if ReChain(v).Some? {
        if e.Attribute? {
          TailDot(ReChain(v).value, e.attr, k);
        } else {
          ReadSlice(e.slice, k);
          TailIndex(ReChain(v).value, PrintSlice(e.slice, Cons(RBrk, k)), ReSlice(e.slice), k);
        }
      }
    } else if e.Call? {
      var k' := Cons(LPar, PrintJoin(Comma, e.args, P_TEST, PrintKeywords(e.keywords, e.args == [], Cons(RPar, k))));
      BareCall(e.func, e.args, e.keywords, k);
      BareAt(e.func, 16, k');
      ReadChain(e.func, k');
      if ReChain(e.func).Some? {
        TailCall(ReChain(e.func).value, k'.tl);
      }
    } else if e.ListExpr? || e.ListComp? {
      BracketLeads(e, k);
    } else {
      PlainLeads(e, k);
    }
  }

  lemma TailDot(v: Expr, a: string, k: Toks)
    ensures TargetTail(v, Cons(Dot, Cons(Nm(Ident(a)), k))) == TargetTail(Attribute(v, a), k)
  {
  }

  lemma TailIndex(v: Expr, t: Toks, s: Option<Expr>, k: Toks)
    requires ParseSubscriptBody(t) == Of(s, Cons(RBrk, k))
    ensures TargetTail(v, Cons(LBrk, t)) == match s case None => Err case Some(x) => TargetTail(Subscript(v, x), k)
  {
    hide ParseSubscriptBody;
  }

  lemma TailCall(v: Expr, t: Toks)
    ensures TargetTail(v, Cons(LPar, t)) == Ok(v, Cons(LPar, t))
  {
  }

  /** A list display: whatever is made of its elements, it ends at its own bracket. */
  lemma BracketLeads(e: Expr, k: Toks)
    requires e.ListExpr? || e.ListComp?
    ensures Off(ParseTargetAtom(Bare(e, k)), k)
  {
    hide Print, Bare, PrintJoin, PrintGens, TargetElts, Exit;
    var u := if e.ListExpr? then PrintJoin(Comma, e.lelts, P_TEST, Cons(RBrk, k))
      else Print(e.elt, P_TEST, PrintGens(e.gens, Cons(RBrk, k)));
    if e.ListExpr? {
      OneLine.ListExit(e.lelts, k);
    } else {
      OneLine.CompExit(e.elt, e.gens, k);
    }
    BracketTokens(e, k);
    BracketEnds(u, k);
  }

  lemma BracketTokens(e: Expr, k: Toks)
    ensures e.ListExpr? ==> Bare(e, k) == Cons(LBrk, PrintJoin(Comma, e.lelts, P_TEST, Cons(RBrk, k)))
    ensures e.ListComp? ==> Bare(e, k) == Cons(LBrk, Print(e.elt, P_TEST, PrintGens(e.gens, Cons(RBrk, k))))
  {
    hide Print, PrintJoin, PrintGens;
  }

  lemma BracketEnds(u: Toks, k: Toks)
    requires Exit(u) == k
    ensures Off(ParseTargetAtom(Cons(LBrk, u)), k)
  {
    hide TargetElts, Exit, Shared;
    EatTargetElts(u);
    var r := TargetElts(u);
    if r.Ok? && At0(r.rest, RBrk) {
      OneLine.ExitStep(r.rest);
    }
  }

  /** A name, a constant, or a display in braces. */
  lemma PlainLeads(e: Expr, k: Toks)
    requires e.Name? || e.Constant? || e.Dict? || e.Set? || e.SetComp? || e.DictComp?
    ensures ChainRead(ParseTargetAtom(Bare(e, k)), ReChain(e), k)
  {
    hide Bare, ReChain, TargetTail, ParseTargetAtom;
    if e.Name? {
      ChainName(e.id, 16, k);
      BareAt(e, 16, k);
      ChainOf(e);
    } else if e.Constant? {
      ConstLeads(e.c, k);
    } else {
      BraceLeads(e, k);
    }
  }

  lemma ChainOf(e: Expr)
    ensures e.Name? ==> ReChain(e) == Some(e)
    ensures e.Dict? || e.Set? || e.SetComp? || e.DictComp? ==> ReChain(e) == None
  {
  }

  lemma ConstLeads(c: Const, k: Toks)
    ensures ChainRead(ParseTargetAtom(Bare(Constant(c), k)), ReChain(Constant(c)), k)
  {
    hide Bare, TargetTail, ParseTargetAtom, ReChain;
    ConstChain(c);
    BareConst(c, k);
    TokenTarget(ConstTok(c), k);
  }

  lemma BareConst(c: Const, k: Toks)
    ensures Bare(Constant(c), k) == Cons(ConstTok(c), k)
  {
  }

  lemma ConstChain(c: Const)
    ensures ReChain(Constant(c)) == if ConstTok(c).Nm? then Some(Name(WordText(ConstTok(c).w))) else None
  {
  }

  lemma TokenTarget(x: Tok, k: Toks)
    requires x != Star && x != LPar && x != LBrk
    ensures ParseTargetAtom(Cons(x, k)) == if x.Nm? then TargetTail(Name(WordText(x.w)), k) else Err
  {
    hide TargetTail;
  }

  lemma BraceLeads(e: Expr, k: Toks)
    requires e.Dict? || e.Set? || e.SetComp? || e.DictComp?
    ensures ChainRead(ParseTargetAtom(Bare(e, k)), ReChain(e), k)
  {
    hide ReChain, TargetTail, ParseTargetAtom;
    ChainOf(e);
    BraceTokens(e, k);
    if e == Set([]) {
      SetTarget(k);
    } else {
      NoBraceTarget(Bare(e, k));
    }
  }

  lemma BraceTokens(e: Expr, k: Toks)
    requires e.Dict? || e.Set? || e.SetComp? || e.DictComp?
    ensures if e == Set([]) then Bare(e, k) == Cons(Nm(Ident("set")), Cons(LPar, Cons(RPar, k)))
      else At0(Bare(e, k), LBrc)
  {
    hide Print, PrintItems, PrintJoin, PrintGens;
  }

  lemma NoBraceTarget(t: Toks)
    requires At0(t, LBrc)
    ensures ParseTargetAtom(t).Err?
  {
  }

  lemma SetTarget(k: Toks)
    ensures ParseTargetAtom(Cons(Nm(Ident("set")), Cons(LPar, Cons(RPar, k)))) ==
      Ok(Name("set"), Cons(LPar, Cons(RPar, k)))
  {
    hide TargetTail;
    TailCall(Name("set"), Cons(RPar, k));
  }

  lemma TargetEltsEnd(k: Toks)
    ensures TargetElts(Cons(RBrk, k)) == Ok([], Cons(RBrk, k))
  {
  }

  lemma ReAllEmpty()
    ensures ReAll([]) == Some([])
  {
  }

  lemma TrailerStops(r: Option<Expr>, k: Toks)
    requires Binds(k) < 15
    ensures match r case None => true case Some(v) => TrailerTail(v, k) == Ok(v, k)
  {
  }

  lemma ReList(es: seq<Expr>)
    ensures Reparse(ListExpr(es)) == match ReAll(es) case None => None case Some(xs) => Some(ListExpr(xs))
  {
    hide ReAll, ReOpt, ReArgs, ReItems, ReGens, ReComparisons, ReKeywords, ReSlice;
  }

  lemma PrintListAt(es: seq<Expr>, p: int, k: Toks)
    requires p <= 16
    ensures Print(ListExpr(es), p, k) == Cons(LBrk, PrintJoin(Comma, es, 1, Cons(RBrk, k)))
  {
    hide PrintJoin;
    assert Print(ListExpr(es), p, k) == Bare(ListExpr(es), k);
  }

  lemma EmptyTuple(p: int, k: Toks)
    requires p <= 16
    ensures Print(Tuple([]), p, k) == Cons(LPar, Cons(RPar, k))
    ensures ParseParenAtom(Cons(RPar, k)) == Ok(Tuple([]), k)
  {
    assert Print(Tuple([]), p, k) == Bare(Tuple([]), k);
  }

  lemma PrintTuple(es: seq<Expr>, p: int, k: Toks)
    requires es != [] && (1 <= p || |es| == 1)
    ensures Print(Tuple(es), p, k) == Cons(LPar, Bare(Tuple(es), Cons(RPar, k)))
  {
    hide Bare;
  }

  lemma ChainName(id: string, p: int, k: Toks)
    requires p <= 16
    ensures Print(Name(id), p, k) == Cons(Nm(Ident(id)), k)
    ensures ParseTargetAtom(Print(Name(id), p, k)) == TargetTail(Name(id), k)
    ensures Reparse(Name(id)) == Some(Name(id))
  {
    hide TargetTail;
    NamePrint(Name(id), p, k);
  }

  lemma ReAttr(v: Expr, a: string)
    ensures Reparse(Attribute(v, a)) == match Reparse(v) case None => None case Some(v') => Some(Attribute(v', a))
  {
    hide ReAll, ReOpt, ReArgs, ReItems, ReGens, ReComparisons, ReKeywords, ReSlice;
  }

  lemma ReSubscript(v: Expr, s: Expr)
    ensures Reparse(Subscript(v, s)) ==
      match Both(Reparse(v), ReSlice(s)) case None => None case Some(x) => Some(Subscript(x.0, x.1))
  {
    hide ReAll, ReOpt, ReArgs, ReItems, ReGens, ReComparisons, ReKeywords, ReSlice;
  }

  // ----- each form of expression, at the level that builds it -----

  lemma ReadableAt(e: Expr, p: int, L: int)
    requires 1 <= L <= 13 && L <= p <= 16 && L != 2
    ensures Readable(e, p, L)
  {
  }

  lemma OrGlue(t: Toks, f: Option<Expr>, u: Toks, vs: Option<seq<Expr>>, k: Toks)
    requires IsKw(u, KwOr) && ParseAt(4, t) == Cont(4, Of(f, u)) && OrTail(u) == Of(vs, k)
    ensures ParseAt(3, t) == match Both(f, vs) case None => Err case Some(x) => Ok(BoolOp(Or, [x.0] + x.1), k)
  {
    hide ParseAnd, OrTail;
  }

  lemma AndGlue(t: Toks, f: Option<Expr>, u: Toks, vs: Option<seq<Expr>>, k: Toks)
    requires IsKw(u, KwAnd) && ParseAt(5, t) == Cont(5, Of(f, u)) && AndTail(u) == Of(vs, k)
    ensures ParseAt(4, t) == match Both(f, vs) case None => Err case Some(x) => Ok(BoolOp(And, [x.0] + x.1), k)
  {
    hide ParseNot, AndTail;
  }

  lemma {:induction false} NativeBool(op: BoolOpKind, vs: seq<Expr>, k: Toks)
    requires |vs| >= 2 && WfAll(vs) && Fits(BoolPrec(op), k)
    ensures ParseAt(BoolPrec(op), Bare(BoolOp(op, vs), k)) == Of(Reparse(BoolOp(op, vs)), k)
    decreases vs, 1
  {
    hide Print, Reparse, ReAll, ParseAt, OrTail, AndTail;
    var q := BoolPrec(op);
    var rest := PrintTail(BoolSym(op), vs[1..], q + 1, k);
    BareBool(op, vs, k);
    TailJoin(BoolSym(op), vs, q + 1, k);
    TailJoin(BoolSym(op), vs[1..], q + 1, k);
    ReBool(op, vs);
    ReAllCons(vs);
    ReadableAt(vs[0], q + 1, q + 1);
    PrintThenParse(vs[0], q + 1, q + 1, rest);
    if op == Or {
      ReadOr(vs[1..], k);
      OrGlue(Print(vs[0], 4, rest), Reparse(vs[0]), rest, ReAll(vs[1..]), k);
    } else {
      ReadAnd(vs[1..], k);
      AndGlue(Print(vs[0], 5, rest), Reparse(vs[0]), rest, ReAll(vs[1..]), k);
    }
  }

  lemma BareBool(op: BoolOpKind, vs: seq<Expr>, k: Toks)
    ensures Bare(BoolOp(op, vs), k) == PrintJoin(BoolSym(op), vs, BoolPrec(op) + 1, k)
  {
    hide PrintJoin;
  }

  lemma ReBool(op: BoolOpKind, vs: seq<Expr>)
    ensures Reparse(BoolOp(op, vs)) == match ReAll(vs) case None => None case Some(xs) => Some(BoolOp(op, xs))
  {
    hide ReAll;
  }

  lemma BareNamed(t: Expr, v: Expr, k: Toks)
    ensures Bare(NamedExpr(t, v), k) == Print(t, 16, Cons(Walrus, Print(v, 3, k)))
  {
    hide Print;
  }

  lemma {:induction false} NativeNamed(t: Expr, v: Expr, k: Toks)
    requires t.Name? && Wf(v) && Fits(1, k)
    ensures ParseExpr(Bare(NamedExpr(t, v), k)) == Of(Reparse(NamedExpr(t, v)), k)
    decreases NamedExpr(t, v), 1
  {
    hide Print, Bare, Reparse, ParseExpr;
    var u := Print(v, 3, k);
    ReadExpr(v, 3, k);
    BareNamed(t, v, k);
    NamePrint(t, 16, Cons(Walrus, u));
    WalrusGlue(t.id, u);
    ReNamed(NamedExpr(t, v));
    assert Name(t.id) == t;
  }

  lemma OpAtSym(op: Operator)
    requires op != Pow
    ensures 7 <= OpPrec(op) <= 12
    ensures OpAt(OpPrec(op), OpSym(op)) == Some(op)
    ensures forall k :: Binds(Cons(OpSym(op), k)) == OpPrec(op)
  {
  }

  lemma BareBin(op: Operator, l: Expr, r: Expr, k: Toks)
    ensures Bare(BinOp(op, l, r), k) ==
      if op == Pow then Print(l, 15, Cons(DStar, Print(r, 14, k)))
      else Print(l, OpPrec(op), Cons(OpSym(op), Print(r, OpPrec(op) + 1, k)))
  {
    hide Print;
  }

  lemma ReBin(op: Operator, l: Expr, r: Expr)
    requires !(op == Pow && l.Await?)
    ensures Reparse(BinOp(op, l, r)) ==
      match Both(Reparse(l), Reparse(r)) case None => None case Some(x) => Some(BinOp(op, x.0, x.1))
  {
    hide ReAll, ReOpt, ReArgs, ReItems, ReGens, ReComparisons, ReKeywords, ReSlice;
  }

  lemma {:induction false} NativeBin(op: Operator, l: Expr, r: Expr, k: Toks)
    requires op != Pow && Wf(l) && Wf(r) && Fits(OpPrec(op), k)
    ensures ParseAt(OpPrec(op), Bare(BinOp(op, l, r), k)) == Cont(OpPrec(op), Of(Reparse(BinOp(op, l, r)), k))
    decreases BinOp(op, l, r), 1
  {
    hide Print, Bare, Reparse, ParseAt, ParseBin, Cont, Wf;
    var L := OpPrec(op);
    BareBin(op, l, r, k);
    ReBin(op, l, r);
    var u := Print(r, L + 1, k);
    ReadOperand(l, L, Cons(OpSym(op), u));
    ReadOperand(r, L + 1, k);
    Ends(L + 1, Reparse(r), k);
    BinGlue(op, Print(l, L, Cons(OpSym(op), u)), Reparse(l), u, Reparse(r), k);
  }

  lemma Ends(L: int, r: Option<Expr>, k: Toks)
    requires Binds(k) < L
    ensures Cont(L, Of(r, k)) == Of(r, k)
  {
    if r.Some? {
      Stops(L, r.value, k);
    }
  }

  lemma {:induction false} ReadOperand(e: Expr, L: int, k: Toks)
    requires Wf(e) && 7 <= L <= 13 && Fits(L, k)
    ensures ParseAt(L, Print(e, L, k)) == Cont(L, Of(Reparse(e), k))
    decreases e, 21
  {
    hide Print, Reparse, ParseAt, Cont, Wf;
    ReadableAt(e, L, L);
    PrintThenParse(e, L, L, k);
  }

  lemma BinGlue(op: Operator, t: Toks, l: Option<Expr>, u: Toks, r: Option<Expr>, k: Toks)
    requires op != Pow
    requires ParseAt(OpPrec(op), t) == Cont(OpPrec(op), Of(l, Cons(OpSym(op), u)))
    requires ParseAt(OpPrec(op) + 1, u) == Of(r, k)
    ensures ParseAt(OpPrec(op), t) ==
            Cont(OpPrec(op), match Both(l, r) case None => Err case Some(x) => Ok(BinOp(op, x.0, x.1), k))
  {
    hide ParseAt, ParseBin;
    OpAtSym(op);
    BinLevel(OpPrec(op) + 1, u);
  }

  lemma BinLevel(L: int, t: Toks)
    requires 7 <= L <= 13
    ensures ParseAt(L, t) == ParseBin(L, t)
  {
    hide ParseUnary;
    if L == 13 {
      assert ParseBin(13, t) == ParseUnary(t);
    }
  }

  lemma {:induction false} NativePow(l: Expr, r: Expr, k: Toks)
    requires !l.Await? && Wf(l) && Wf(r) && Fits(14, k)
    ensures ParsePower(Bare(BinOp(Pow, l, r), k)) == Of(Reparse(BinOp(Pow, l, r)), k)
    decreases BinOp(Pow, l, r), 1
  {
    hide Print, Bare, Reparse, ParseTrailer, ParsePower, ParseUnary, ParseAt, Cont, Wf;
    BareBin(Pow, l, r, k);
    ReBin(Pow, l, r);
    var u := Print(r, 14, k);
    PrintThenParse(l, 15, 15, Cons(DStar, u));
    ReadableAt(r, 14, 13);
    PrintThenParse(r, 14, 13, k);
    PowGlue(Print(l, 15, Cons(DStar, u)), Reparse(l), u, Reparse(r), k);
  }

  lemma PowGlue(t: Toks, l: Option<Expr>, u: Toks, r: Option<Expr>, k: Toks)
    requires ParseAt(15, t) == Cont(15, Of(l, Cons(DStar, u)))
    requires ParseAt(13, u) == Cont(13, Of(r, k))
    ensures ParsePower(t) == match Both(l, r) case None => Err case Some(x) => Ok(BinOp(Pow, x.0, x.1), k)
  {
    hide ParseTrailer, ParseUnary;
  }

  /** `await x` to the left of `**` is written without parentheses, and the parser reads
      the whole power as the operand of `await`. */
  lemma {:induction false} NativePowAwait(x: Expr, r: Expr, k: Toks)
    requires Wf(x) && Wf(r) && Fits(13, k)
    ensures ParseUnary(Bare(BinOp(Pow, Await(x), r), k)) == Of(Reparse(BinOp(Pow, Await(x), r)), k)
    decreases BinOp(Pow, Await(x), r), 1
  {
    hide Print, Bare, Wrapped, Reparse, ParseTrailer, ParseUnary, ParseAt, Cont;
    var v := Print(r, 14, k);
    var u := Cons(DStar, v);
    var t := if x.Await? then Wrapped(x, u) else Print(x, 15, u);
    BareBin(Pow, Await(x), r, k);
    PrintAwait(x, 15, u);
    RePowAwait(x, r);
    ReadableAt(r, 14, 13);
    PrintThenParse(r, 14, 13, k);
    LowLevels(v, Of(Reparse(r), k));
    AwaitOperand(x, u);
    AwaitPowGlue(t, Reparse(x), v, Reparse(r), k);
  }

  lemma PrintAwait(x: Expr, p: int, k: Toks)
    requires p <= 15
    ensures Print(Await(x), p, k) == Cons(Nm(KwAwait), if x.Await? then Wrapped(x, k) else Print(x, 15, k))
  {
    assert Print(Await(x), p, k) == Bare(Await(x), k);
    hide Print, Wrapped;
  }

  lemma RePowAwait(x: Expr, r: Expr)
    ensures Reparse(BinOp(Pow, Await(x), r)) ==
      match Both(Reparse(x), Reparse(r)) case None => None case Some(p) => Some(Await(BinOp(Pow, p.0, p.1)))
  {
    hide ReAll, ReOpt, ReArgs, ReItems, ReGens, ReComparisons, ReKeywords, ReSlice;
  }

  /** Levels 13 and 15 by name. */
  lemma LowLevels(t: Toks, r: Res<Expr>)
    ensures ParseAt(13, t) == ParseUnary(t) && Cont(13, r) == r
    ensures ParseAt(14, t) == ParsePower(t) && Cont(14, r) == r
    ensures ParseAt(15, t) == ParseTrailer(t)
    ensures r.Ok? ==> Cont(15, r) == TrailerTail(r.v, r.rest)
  {
    hide ParseUnary, ParsePower, ParseTrailer;
  }

  /** The operand of await is read as a primary, whatever follows. */
  lemma {:induction false} AwaitOperand(x: Expr, k: Toks)
    requires Wf(x) && Binds(k) < 15
    ensures var t := if x.Await? then Wrapped(x, k) else Print(x, 15, k);
            ParseTrailer(t) == Of(Reparse(x), k) && NoPrefix(14, t)
    decreases x, 22
  {
    hide Print, Bare, Wrapped, Reparse, ParseTrailer, TrailerTail, ParseAt, Cont;
    TrailerStops(Reparse(x), k);
    if x.Await? {
      WrappedAtom(x, k);
      Levels(Wrapped(x, k), Of(Reparse(x), k));
      WrappedHead(x, k);
      Down(16, 15, Wrapped(x, k), Reparse(x), k);
      LowLevels(Wrapped(x, k), Of(Reparse(x), k));
      ContErr(15);
    } else {
      PrintThenParse(x, 15, 15, k);
      HeadPrint(x, 15, k);
      LowLevels(Print(x, 15, k), Of(Reparse(x), k));
      ContErr(15);
    }
  }

  lemma ContErr(L: int)
    ensures Cont(L, Err) == Err
  {
  }

  lemma WrappedHead(x: Expr, k: Toks)
    ensures NoPrefix(16, Wrapped(x, k))
  {
    hide Bare;
  }

  lemma BareAwait(x: Expr, k: Toks)
    ensures Bare(Await(x), k) == Cons(Nm(KwAwait), if x.Await? then Wrapped(x, k) else Print(x, 15, k))
  {
    hide Print, Wrapped;
  }

  lemma AwaitGlue(t: Toks, x: Option<Expr>, k: Toks)
    requires NoPrefix(14, t) && ParseTrailer(t) == Of(x, k) && !At0(k, DStar)
    ensures ParseUnary(Cons(Nm(KwAwait), t)) == match x case None => Err case Some(x') => Ok(Await(x'), k)
  {
    hide ParseTrailer;
    assert ParseUnary(t) == ParsePower(t);
  }

  /** A power read as the operand of await. */
  lemma AwaitPowGlue(t: Toks, x: Option<Expr>, u: Toks, r: Option<Expr>, k: Toks)
    requires NoPrefix(14, t) && ParseTrailer(t) == Of(x, Cons(DStar, u)) && ParseUnary(u) == Of(r, k)
    ensures ParseUnary(Cons(Nm(KwAwait), t)) ==
      match Both(x, r) case None => Err case Some(p) => Ok(Await(BinOp(Pow, p.0, p.1)), k)
  {
    AwaitWord(t);
    Unprefixed(t);
    hide ParseTrailer, ParseUnary;
  }

  lemma AwaitWord(t: Toks)
    ensures ParseUnary(Cons(Nm(KwAwait), t)) == match ParseUnary(t) case Err => Err case Ok(x, r) => Ok(Await(x), r)
  {
    hide ParsePower;
  }

  lemma Unprefixed(t: Toks)
    requires NoPrefix(14, t)
    ensures ParseUnary(t) == ParsePower(t)
  {
    hide ParsePower;
  }

  lemma {:induction false} NativeAwait(x: Expr, k: Toks)
    requires Wf(x) && Fits(13, k)
    ensures ParseUnary(Bare(Await(x), k)) == Of(Reparse(Await(x)), k)
    decreases Await(x), 1
  {
    hide Print, Bare, Wrapped, Reparse, ParseTrailer, ParseUnary, Wf, NoPrefix;
    var t := if x.Await? then Wrapped(x, k) else Print(x, 15, k);
    BareAwait(x, k);
    ReAwait(x);
    AwaitOperand(x, k);
    AwaitGlue(t, Reparse(x), k);
  }

  lemma ReAwait(x: Expr)
    ensures Reparse(Await(x)) == match Reparse(x) case None => None case Some(x') => Some(Await(x'))
  {
    hide ReAll, ReOpt, ReArgs, ReItems, ReGens, ReComparisons, ReKeywords, ReSlice;
  }

  lemma PrefixGlue(op: UnaryKind, t: Toks)
    ensures op == Not ==>
      ParseNot(Cons(Nm(KwNot), t)) == match ParseNot(t) case Err => Err case Ok(x, r) => Ok(UnaryOp(Not, x), r)
    ensures op != Not ==>
      ParseUnary(Cons(UnarySym(op), t)) == match ParseUnary(t) case Err => Err case Ok(x, r) => Ok(UnaryOp(op, x), r)
  {
    hide ParseCompare, ParsePower;
  }

  lemma {:induction false} NativeUnary(op: UnaryKind, x: Expr, k: Toks)
    requires Wf(x) && Fits(if op == Not then 5 else 13, k)
    ensures ParseAt(if op == Not then 5 else 13, Bare(UnaryOp(op, x), k)) == Of(Reparse(UnaryOp(op, x)), k)
    decreases UnaryOp(op, x), 1
  {
    hide Print, Bare, Reparse, ParseAt, ParseNot, ParseUnary;
    var L := if op == Not then 5 else 13;
    var t := Print(x, L, k);
    BareUnary(op, x, k);
    ReUnary(op, x);
    ReadableAt(x, L, L);
    PrintThenParse(x, L, L, k);
    UnaryLevels(t);
    UnaryLevels(Cons(UnarySym(op), t));
    PrefixGlue(op, t);
  }

  lemma UnaryLevels(t: Toks)
    ensures ParseAt(5, t) == ParseNot(t) && ParseAt(13, t) == ParseUnary(t)
  {
    hide ParseNot, ParseUnary;
  }

  lemma BareUnary(op: UnaryKind, x: Expr, k: Toks)
    ensures Bare(UnaryOp(op, x), k) == Cons(UnarySym(op), Print(x, if op == Not then 5 else 13, k))
  {
    hide Print;
  }

  lemma ReUnary(op: UnaryKind, x: Expr)
    ensures Reparse(UnaryOp(op, x)) == match Reparse(x) case None => None case Some(x') => Some(UnaryOp(op, x'))
  {
    hide ReAll, ReOpt, ReArgs, ReItems, ReGens, ReComparisons, ReKeywords, ReSlice;
  }

  lemma {:induction false} NativeCompare(l: Expr, cs: seq<Comparison>, k: Toks)
    requires Wf(l) && cs != [] && WfComparisons(cs) && Fits(6, k)
    ensures ParseCompare(Bare(Compare(l, cs), k)) == Of(Reparse(Compare(l, cs)), k)
    decreases Compare(l, cs), 1
  {
    hide Print, PrintComparisons, Reparse, ReComparisons, ParseBin, CompareTail;
    var t := PrintComparisons(cs, k);
    assert Bare(Compare(l, cs), k) == Print(l, 7, t);
    ReadComparisons(cs, k);
    ReadableAt(l, 7, 7);
    ComparisonsBind(cs, k);
    PrintThenParse(l, 7, 7, t);
    if Reparse(l).Some? {
      Stops(7, Reparse(l).value, t);
    }
    ReCompare(l, cs);
    BinLevel(7, Print(l, 7, t));
  }

  lemma ComparisonsBind(cs: seq<Comparison>, k: Toks)
    requires cs != []
    ensures Binds(PrintComparisons(cs, k)) == 6
  {
    hide Print;
    assert PrintComparisons(cs, k) == PrintComparison(cs[0], PrintComparisons(cs[1..], k));
  }

  lemma ReCompare(l: Expr, cs: seq<Comparison>)
    requires cs != []
    ensures ReComparisons(cs).Some? ==> ReComparisons(cs).value != []
    ensures Reparse(Compare(l, cs)) ==
      match Both(Reparse(l), ReComparisons(cs)) case None => None case Some(x) => Some(Compare(x.0, x.1))
  {
    hide ReAll, ReOpt, ReArgs, ReItems, ReGens, ReKeywords, ReSlice;
  }

  // ----- conditional expressions -----

  lemma BareIf(t: Expr, b: Expr, o: Expr, k: Toks)
    ensures Bare(IfExp(t, b, o), k) ==
      Print(b, 2, Cons(Nm(KwIf), Print(t, 2, Cons(Nm(KwElse), Print(o, 1, k)))))
  {
    hide Print;
  }

  lemma SamePrint(e: Expr, k: Toks)
    requires !e.NamedExpr?
    ensures Print(e, 2, k) == Print(e, 3, k)
  {
    hide Bare, Wrapped;
  }

  lemma ReIf(t: Expr, b: Expr, o: Expr)
    ensures Reparse(IfExp(t, b, o)) ==
      if Reparse(t).None? || Reparse(b).None? || Reparse(o).None? || t.NamedExpr? then None
      else if b.NamedExpr? then
        match Reparse(b) case Some(NamedExpr(x, v)) => Some(NamedExpr(x,
          IfExp(Reparse(t).value, v, Reparse(o).value))) case _ => None
      else Some(IfExp(Reparse(t).value, Reparse(b).value, Reparse(o).value))
  {
  }

  /** From the test on: `test else ...`, after the body and `if` have been read. */
  /** Read, with no `else` after it. */
  predicate NoElse(r: Res<Expr>) {
    match r case Err => false case Ok(_, k) => !IsKw(k, KwElse)
  }

  lemma {:induction false} ReadTest(t: Expr, y: Toks)
    requires Wf(t)
    ensures var u := Print(t, 2, Cons(Nm(KwElse), y));
            if t.NamedExpr? then NoElse(ParseOr(u))
            else ParseOr(u) == Of(Reparse(t), Cons(Nm(KwElse), y))
    decreases t, 22
  {
    hide Print, Bare, Reparse, ParseExpr, ParseAnd, ParseAt, Cont;
    var k1 := Cons(Nm(KwElse), y);
    if t.NamedExpr? {
      var w := Cons(Walrus, Print(t.nvalue, 3, k1));
      NamedBare(t, 2, k1);
      Levels(Cons(Nm(Ident(t.target.id)), w), Of(Some(Name(t.target.id)), w));
      assert ParseAtom(Cons(Nm(Ident(t.target.id)), w)) == Ok(Name(t.target.id), w);
      Down(16, 3, Cons(Nm(Ident(t.target.id)), w), Some(Name(t.target.id)), w);
      OrLevel(Cons(Nm(Ident(t.target.id)), w), Ok(Name(t.target.id), w));
    } else {
      SamePrint(t, k1);
      ReadOr3(t, k1);
    }
  }

  lemma OrLevel(t: Toks, r: Res<Expr>)
    ensures ParseAt(3, t) == ParseOr(t) && Cont(3, r) == r
  {
    hide ParseOr;
  }

  lemma NamedBare(e: Expr, p: int, k: Toks)
    requires e.NamedExpr? && e.target.Name? && p <= 2
    ensures Print(e, p, k) == Cons(Nm(Ident(e.target.id)), Cons(Walrus, Print(e.nvalue, 3, k)))
  {
    var w := Cons(Walrus, Print(e.nvalue, 3, k));
    assert Print(e, p, k) == Bare(e, k);
    assert Bare(e, k) == Print(e.target, 16, w);
    NamePrint(e.target, 16, w);
  }

  lemma {:induction false} NativeIf(t: Expr, b: Expr, o: Expr, k: Toks)
    requires Wf(t) && Wf(b) && Wf(o) && Fits(1, k)
    ensures ParseExpr(Bare(IfExp(t, b, o), k)) == Of(Reparse(IfExp(t, b, o)), k)
    decreases IfExp(t, b, o), 1
  {
    hide Print, Bare, Reparse, ParseExpr, ParseOr, ParseTernary;
    var k1 := Cons(Nm(KwElse), Print(o, 1, k));
    var u := Print(t, 2, k1);
    var k2 := Cons(Nm(KwIf), u);
    BareIf(t, b, o, k);
    ReIf(t, b, o);
    ReadTest(t, Print(o, 1, k));
    ReadExpr(o, 1, k);
    if b.NamedExpr? {
      NamedBare(b, 2, k2);
      var v := b.nvalue;
      ReadOr3(v, k2);
      TernaryGlue(Print(v, 3, k2), Reparse(v), u, t.NamedExpr?, Reparse(t), Print(o, 1, k), Reparse(o), k);
      HeadPrint(v, 3, k2);
      WalrusGlue(b.target.id, Print(v, 3, k2));
      NotPrefixed(Print(v, 3, k2));
      ReNamed(b);
    } else {
      SamePrint(b, k2);
      ReadOr3(b, k2);
      HeadPrint(b, 3, k2);
      TernaryGlue(Print(b, 3, k2), Reparse(b), u, t.NamedExpr?, Reparse(t), Print(o, 1, k), Reparse(o), k);
      NotPrefixed(Print(b, 3, k2));
    }
  }

  lemma ReNamed(b: Expr)
    requires b.NamedExpr?
    ensures Reparse(b) == match Reparse(b.nvalue) case None => None case Some(v) => Some(NamedExpr(b.target, v))
  {
    hide ReAll, ReOpt, ReArgs, ReItems, ReGens, ReComparisons, ReKeywords, ReSlice;
  }

  lemma WalrusGlue(id: string, t: Toks)
    ensures ParseExpr(Cons(Nm(Ident(id)), Cons(Walrus, t))) ==
      match ParseExpr(t) case Err => Err case Ok(v, r) => Ok(NamedExpr(Name(id), v), r)
  {
    hide ParseTernary;
    var t2 := Cons(Nm(Ident(id)), Cons(Walrus, t));
    assert t2.tl.tl == t;
  }

  lemma NotPrefixed(t: Toks)
    requires NoPrefix(2, t) && !NameThen(t, Walrus)
    ensures ParseExpr(t) == ParseTernary(t)
  {
    hide ParseTernary;
  }

  lemma TernaryGlue(x: Toks, b: Option<Expr>, u: Toks, bad: bool, t: Option<Expr>, y: Toks, o: Option<Expr>, k: Toks)
    requires ParseOr(x) == Of(b, Cons(Nm(KwIf), u))
    requires bad ==> NoElse(ParseOr(u))
    requires !bad ==> ParseOr(u) == Of(t, Cons(Nm(KwElse), y))
    requires ParseExpr(y) == Of(o, k)
    ensures ParseTernary(x) ==
      if b.None? || bad || t.None? || o.None? then Err else Ok(IfExp(t.value, b.value, o.value), k)
  {
    hide ParseOr, ParseExpr;
  }

  // ----- trailers -----

  lemma {:induction false} TrailerOf(e: Expr, k: Toks)
    requires Wf(e) && Binds(k) == 15
    ensures ParseTrailer(Print(e, 16, k)) == match Reparse(e) case None => Err case Some(e') => TrailerTail(e', k)
    decreases e, 22
  {
    hide Print, Reparse, ParseAt, TrailerTail, Cont;
    PrintThenParse(e, 16, 15, k);
    LowLevels(Print(e, 16, k), Of(Reparse(e), k));
    ContErr(15);
  }

  lemma {:induction false} NativeTrailer(e: Expr, k: Toks)
    requires Wf(e) && (e.Attribute? || e.Subscript? || e.Call?) && Fits(15, k)
    ensures ParseTrailer(Bare(e, k)) == match Reparse(e) case None => Err case Some(e') => TrailerTail(e', k)
    decreases e, 1
  {
    hide Print, Reparse, ParseTrailer, ParseCallArgs, ParseSubscriptBody, PrintAttrValue, PrintSlice, ReSlice,
      PrintJoin, PrintKeywords, ReAll, ReKeywords;
    match e
    case Attribute(v, a) =>
      var k1 := Cons(Dot, Cons(Nm(Ident(a)), k));
      ReAttr(v, a);
      AttrValue(v, k1);
    case Subscript(v, s) =>
      var k1 := Cons(LBrk, PrintSlice(s, Cons(RBrk, k)));
      ReSubscript(v, s);
      ReadSlice(s, k);
      TrailerOf(v, k1);
    case Call(f, args, kws) =>
      var u := PrintJoin(Comma, args, P_TEST, PrintKeywords(kws, args == [], Cons(RPar, k)));
      assert Bare(e, k) == Print(f, 16, Cons(LPar, u));
      ReCall(f, args, kws);
      ReadCallArgs(e, k);
      TrailerOf(f, Cons(LPar, u));
  }

  lemma ReCall(f: Expr, args: seq<Expr>, kws: seq<Keyword>)
    ensures Reparse(Call(f, args, kws)) ==
      match Three(Reparse(f), ReAll(args), ReKeywords(kws))
      case None => None
      case Some(x) => Some(Call(x.0, x.1, x.2))
  {
    hide ReAll, ReOpt, ReArgs, ReItems, ReGens, ReComparisons, ReKeywords, ReSlice;
    var f', args', kws' := Reparse(f), ReAll(args), ReKeywords(kws);
    assert f'.None? || args'.None? || kws'.None? || Three(f', args', kws') == Some((f'.value, args'.value, kws'.value));
  }

  lemma {:induction false} AttrValue(v: Expr, k: Toks)
    requires Wf(v) && Binds(k) == 15
    ensures ParseTrailer(PrintAttrValue(v, k)) == match Reparse(v) case None => Err case Some(v') => TrailerTail(v', k)
    decreases v, 23
  {
    hide Print, Reparse, TrailerTail, ParseStarOrExpr, ParseParenAtom;
    if v.Constant? && v.c.CInt? {
      var t := Print(v, 16, Cons(RPar, k));
      ReadExpr(v, 16, Cons(RPar, k));
      ParenGlue(t, Reparse(v), k);
      assert ParseAtom(Cons(LPar, t)) == Of(Reparse(v), k);
    } else {
      TrailerOf(v, k);
    }
  }

  // ----- displays and comprehensions -----

  /** The element of a comprehension followed by its clauses. */
  lemma {:induction false} ReadHead(e: Expr, k: Toks)
    requires e.ListComp? || e.SetComp? || e.GeneratorExp? || e.DictComp?
    requires Wf(e) && Closer(k)
    ensures var u := PrintGens(e.gens, k);
            CompForStart(u) && ParseGens(u) == Of(ReGens(e.gens), k)
            && ParseExpr(Print(e.elt, 1, u)) == Of(Reparse(e.elt), u)
            && ParseStarOrExpr(Print(e.elt, 1, u)) == Of(Reparse(e.elt), u)
            && HeadOk(1, Print(e.elt, 1, u))
    decreases e, 0
  {
    hide Print, PrintGens, Reparse, ParseExpr, ParseGens;
    ReadGens(e.gens, k);
    ReadExpr(e.elt, 1, PrintGens(e.gens, k));
  }

  lemma ListCompGlue(t: Toks, f: Option<Expr>, u: Toks, gs: Option<seq<Comprehension>>, k: Toks)
    requires !At0(t, RBrk) && ParseStarOrExpr(t) == Of(f, u) && CompForStart(u) && ParseGens(u) == Of(gs, Cons(RBrk, k))
    ensures ParseAtom(Cons(LBrk, t)) == match Both(f, gs) case None => Err case Some(x) => Ok(ListComp(x.0, x.1), k)
  {
    hide ParseStarOrExpr, ParseGens, CompForStart;
    assert ParseAtom(Cons(LBrk, t)) == ParseListAtom(t);
  }

  lemma SetCompGlue(t: Toks, f: Option<Expr>, u: Toks, gs: Option<seq<Comprehension>>, k: Toks)
    requires !At0(t, RBrc) && !At0(t, DStar)
    requires ParseStarOrExpr(t) == Of(f, u) && CompForStart(u) && ParseGens(u) == Of(gs, Cons(RBrc, k))
    ensures ParseAtom(Cons(LBrc, t)) == match Both(f, gs) case None => Err case Some(x) => Ok(SetComp(x.0, x.1), k)
  {
    hide ParseStarOrExpr, ParseGens, CompForStart;
    NotFor(u);
    assert ParseAtom(Cons(LBrc, t)) == ParseBraceAtom(t);
  }

  lemma GenExpGlue(t: Toks, f: Option<Expr>, u: Toks, gs: Option<seq<Comprehension>>, k: Toks)
    requires !At0(t, RPar) && ParseStarOrExpr(t) == Of(f, u) && CompForStart(u) && ParseGens(u) == Of(gs, Cons(RPar, k))
    ensures ParseAtom(Cons(LPar, t)) ==
            match Both(f, gs)
            case None => Err
            case Some(x) => Ok(GeneratorExp(x.0, x.1), k)
  {
    hide ParseStarOrExpr, ParseGens, CompForStart;
    assert ParseAtom(Cons(LPar, t)) == ParseParenAtom(t);
  }

  lemma BareComp(e: Expr, k: Toks)
    requires e.ListComp? || e.SetComp? || e.GeneratorExp?
    ensures Bare(e, k) ==
      if e.ListComp? then Cons(LBrk, Print(e.elt, 1, PrintGens(e.gens, Cons(RBrk, k))))
      else if e.SetComp? then Cons(LBrc, Print(e.elt, 1, PrintGens(e.gens, Cons(RBrc, k))))
      else Cons(LPar, Print(e.elt, 1, PrintGens(e.gens, Cons(RPar, k))))
  {
    hide Print, PrintGens;
  }

  lemma {:induction false} NativeComp(e: Expr, k: Toks)
    requires Wf(e) && (e.ListComp? || e.SetComp? || e.GeneratorExp?)
    ensures ParseAtom(Bare(e, k)) == Of(Reparse(e), k)
    decreases e, 1
  {
    hide Print, Bare, PrintGens, Reparse, ReGens, ParseExpr, ParseStarOrExpr, ParseAtom, ParseGens, CompForStart,
      HeadOk, Wf;
    var u := PrintGens(e.gens, Cons(if e.ListComp? then RBrk else if e.SetComp? then RBrc else RPar, k));
    var t := Print(e.elt, 1, u);
    ReComp(e);
    BareComp(e, k);
    ReadHead(e, if e.ListComp? then Cons(RBrk, k) else if e.SetComp? then Cons(RBrc, k) else Cons(RPar, k));
    NoCloser(t);
    if e.ListComp? {
      ListCompGlue(t, Reparse(e.elt), u, ReGens(e.gens), k);
    } else if e.SetComp? {
      SetCompGlue(t, Reparse(e.elt), u, ReGens(e.gens), k);
    } else {
      GenExpGlue(t, Reparse(e.elt), u, ReGens(e.gens), k);
    }
  }

  lemma NotFor(t: Toks)
    requires CompForStart(t)
    ensures !At0(t, Colon) && !At0(t, Comma)
  {
  }

  lemma NoCloser(t: Toks)
    requires HeadOk(1, t)
    ensures !At0(t, RPar) && !At0(t, RBrk) && !At0(t, RBrc) && !At0(t, DStar)
  {
  }

  lemma ReComp(e: Expr)
    requires e.ListComp? || e.SetComp? || e.GeneratorExp?
    ensures Reparse(e) ==
      match Both(Reparse(e.elt), ReGens(e.gens)) case None => None case Some(x) => Some(e.(elt := x.0, gens := x.1))
  {
    hide ReAll, ReOpt, ReArgs, ReItems, ReGens, ReComparisons, ReKeywords, ReSlice;
  }

  lemma DictCompGlue(t: Toks, key: Option<Expr>, v: Toks, x: Option<Expr>, u: Toks, gs: Option<seq<Comprehension>>,
                     k: Toks)
    requires !At0(t, RBrc) && !At0(t, DStar) && ParseStarOrExpr(t) == Of(key, Cons(Colon, v))
    requires ParseExpr(v) == Of(x, u) && CompForStart(u) && ParseGens(u) == Of(gs, Cons(RBrc, k))
    ensures ParseAtom(Cons(LBrc, t)) ==
      match Three(key, x, gs) case None => Err case Some(p) => Ok(DictComp(p.0, p.1, p.2), k)
  {
    hide ParseStarOrExpr, ParseExpr, ParseGens, CompForStart;
    assert ParseAtom(Cons(LBrc, t)) == ParseBraceAtom(t);
    assert key.Some? ==> ParseBraceAtom(t) == ParseDictRest(key.value, v);
  }

  /** A display that starts with a key. */
  lemma DictGlue(t: Toks, key: Option<Expr>, v: Toks, x: Option<Expr>, u: Toks, items: Option<seq<DictItem>>, k: Toks)
    requires !At0(t, RBrc) && !At0(t, DStar) && ParseStarOrExpr(t) == Of(key, Cons(Colon, v))
    requires ParseExpr(v) == Of(x, u) && !CompForStart(u) && DictTail(u) == Of(items, Cons(RBrc, k))
    ensures ParseAtom(Cons(LBrc, t)) ==
      match Three(key, x, items) case None => Err case Some(p) => Ok(Dict([DictItem(key, p.1)] + p.2), k)
  {
    hide ParseStarOrExpr, ParseExpr, DictTail, CompForStart;
    assert ParseAtom(Cons(LBrc, t)) == ParseBraceAtom(t);
    assert key.Some? ==> ParseBraceAtom(t) == ParseDictRest(key.value, v);
  }

  /** A display that starts with `**`. */
  lemma DictStarGlue(v: Toks, x: Option<Expr>, u: Toks, items: Option<seq<DictItem>>, k: Toks)
    requires ParseExpr(v) == Of(x, u) && DictTail(u) == Of(items, Cons(RBrc, k))
    ensures ParseAtom(Cons(LBrc, Cons(DStar, v))) ==
      match Both(x, items) case None => Err case Some(p) => Ok(Dict([DictItem(None, p.0)] + p.1), k)
  {
    hide ParseExpr, DictTail;
    assert ParseAtom(Cons(LBrc, Cons(DStar, v))) == ParseBraceAtom(Cons(DStar, v));
  }

  lemma BareDict(items: seq<DictItem>, k: Toks)
    ensures Bare(Dict(items), k) == Cons(LBrc, PrintItems(items, true, Cons(RBrc, k)))
    ensures items != [] ==>
      PrintItems(items, true, Cons(RBrc, k)) == PrintItem(items[0], PrintItems(items[1..], false, Cons(RBrc, k)))
  {
    hide PrintItem;
  }

  lemma BareDictComp(key: Expr, x: Expr, gs: seq<Comprehension>, k: Toks)
    ensures Bare(DictComp(key, x, gs), k) ==
            Cons(LBrc, Print(key, 1, Cons(Colon, Print(x, 1, PrintGens(gs, Cons(RBrc, k))))))
  {
    hide Print, PrintGens;
  }

  lemma {:induction false} NativeDictComp(key: Expr, x: Expr, gs: seq<Comprehension>, k: Toks)
    requires Wf(key) && Wf(x) && gs != [] && WfGens(gs)
    ensures ParseAtom(Bare(DictComp(key, x, gs), k)) == Of(Reparse(DictComp(key, x, gs)), k)
    decreases DictComp(key, x, gs), 1
  {
    hide Print, Bare, PrintGens, Reparse, ReGens, ParseExpr, ParseStarOrExpr, ParseAtom, ParseGens, CompForStart,
      HeadOk;
    var w := PrintGens(gs, Cons(RBrc, k));
    var u := Print(x, 1, w);
    BareDictComp(key, x, gs, k);
    ReadHead(DictComp(key, x, gs), Cons(RBrc, k));
    ReadExpr(key, 1, Cons(Colon, u));
    ReDictComp(key, x, gs);
    NoCloser(Print(key, 1, Cons(Colon, u)));
    DictCompGlue(Print(key, 1, Cons(Colon, u)), Reparse(key), u, Reparse(x), w, ReGens(gs), k);
  }

  lemma ReDictComp(key: Expr, x: Expr, gs: seq<Comprehension>)
    ensures Reparse(DictComp(key, x, gs)) ==
      if Reparse(key).None? || Reparse(x).None? || ReGens(gs).None? then None
      else Some(DictComp(Reparse(key).value, Reparse(x).value, ReGens(gs).value))
  {
    hide ReAll, ReOpt, ReArgs, ReItems, ReGens, ReComparisons, ReKeywords, ReSlice;
  }

  lemma EmptyList(k: Toks)
    ensures ParseAtom(Cons(LBrk, PrintJoin(Comma, [], 1, Cons(RBrk, k)))) == Ok(ListExpr([]), k)
  {
  }

  lemma NoFor(es: seq<Expr>, k: Toks)
    requires !CompForStart(k)
    ensures !CompForStart(PrintTail(Comma, es, 1, k))
    ensures !At0(k, Colon) ==> !At0(PrintTail(Comma, es, 1, k), Colon)
  {
    hide Print;
  }

  lemma ListGlue(t: Toks, f: Option<Expr>, u: Toks, es: Option<seq<Expr>>, k: Toks)
    requires !At0(t, RBrk) && ParseStarOrExpr(t) == Of(f, u) && !CompForStart(u)
      && EltsTail(RBrk, u) == Of(es, Cons(RBrk, k))
    ensures ParseAtom(Cons(LBrk, t)) ==
            match Both(f, es)
            case None => Err
            case Some(x) => Ok(ListExpr([x.0] + x.1), k)
  {
    hide ParseStarOrExpr, EltsTail, CompForStart;
    assert ParseAtom(Cons(LBrk, t)) == ParseListAtom(t);
  }

  lemma SetGlue(t: Toks, f: Option<Expr>, u: Toks, es: Option<seq<Expr>>, k: Toks)
    requires !At0(t, RBrc) && !At0(t, DStar) && ParseStarOrExpr(t) == Of(f, u)
    requires !CompForStart(u) && !At0(u, Colon) && EltsTail(RBrc, u) == Of(es, Cons(RBrc, k))
    ensures ParseAtom(Cons(LBrc, t)) == match Both(f, es) case None => Err case Some(x) => Ok(Set([x.0] + x.1), k)
  {
    hide ParseStarOrExpr, EltsTail, CompForStart;
    assert ParseAtom(Cons(LBrc, t)) == ParseBraceAtom(t);
  }

  lemma {:induction false} NativeList(es: seq<Expr>, k: Toks)
    requires WfElts(es)
    ensures ParseAtom(Bare(ListExpr(es), k)) == Of(Reparse(ListExpr(es)), k)
    decreases ListExpr(es), 1
  {
    hide Print, Bare, Reparse, ReAll, ParseStarOrExpr, ParseAtom, EltsTail;
    ReList(es);
    BareList(es, k);
    if es == [] {
      ReAllEmpty();
      EmptyList(k);
    } else {
      var rest := PrintTail(Comma, es[1..], 1, Cons(RBrk, k));
      TailJoin(Comma, es, 1, Cons(RBrk, k));
      ReadElt(es[0], rest);
      ReadElts(RBrk, es[1..], k);
      ReAllCons(es);
      NoFor(es[1..], Cons(RBrk, k));
      ListGlue(Print(es[0], 1, rest), Reparse(es[0]), rest, ReAll(es[1..]), k);
    }
  }

  lemma BareList(es: seq<Expr>, k: Toks)
    ensures Bare(ListExpr(es), k) == Cons(LBrk, PrintJoin(Comma, es, 1, Cons(RBrk, k)))
    ensures es != [] ==> Bare(Set(es), k) == Cons(LBrc, PrintJoin(Comma, es, 1, Cons(RBrc, k)))
  {
    hide PrintJoin;
  }

  lemma {:induction false} NativeSet(es: seq<Expr>, k: Toks)
    requires es != [] && WfElts(es)
    ensures ParseAtom(Bare(Set(es), k)) == Of(Reparse(Set(es)), k)
    decreases Set(es), 1
  {
    hide Print, Bare, Reparse, ReAll, ParseStarOrExpr, ParseAtom, EltsTail;
    BareList(es, k);
    ReSet(es);
    var rest := PrintTail(Comma, es[1..], 1, Cons(RBrc, k));
    TailJoin(Comma, es, 1, Cons(RBrc, k));
    ReadElt(es[0], rest);
    ReadElts(RBrc, es[1..], k);
    ReAllCons(es);
    NoFor(es[1..], Cons(RBrc, k));
    SetGlue(Print(es[0], 1, rest), Reparse(es[0]), rest, ReAll(es[1..]), k);
  }

  lemma ReSet(es: seq<Expr>)
    requires es != []
    ensures Reparse(Set(es)) == match ReAll(es) case None => None case Some(xs) => Some(Set(xs))
  {
    hide ReAll, ReOpt, ReArgs, ReItems, ReGens, ReComparisons, ReKeywords, ReSlice;
  }

  /** An empty set has no display; the call written for it is read as a call. */
  lemma EmptySet(k: Toks)
    requires Fits(15, k)
    ensures ParseTrailer(Bare(Set([]), k)) == TrailerTail(Call(Name("set"), [], []), k)
  {
    var t := Cons(LPar, Cons(RPar, k));
    assert Bare(Set([]), k) == Cons(Nm(Ident("set")), t);
    assert ParseAtom(Cons(Nm(Ident("set")), t)) == Ok(Name("set"), t);
    hide ParseAtom;
    assert TrailerTail(Name("set"), t) == TrailerTail(Call(Name("set"), [], []), k);
  }

  lemma WfItemParts(it: DictItem)
    requires WfItem(it)
    ensures Wf(it.value) && (it.key.Some? ==> Wf(it.key.value))
  {
    hide Wf;
  }

  lemma {:induction false} NativeDict(items: seq<DictItem>, k: Toks)
    requires WfItems(items)
    ensures ParseAtom(Bare(Dict(items), k)) == Of(Reparse(Dict(items)), k)
    decreases Dict(items), 1
  {
    hide Print, Bare, PrintItems, Reparse, ReItems, ReItem, ParseExpr, ParseAtom, ParseStarOrExpr, DictTail,
      CompForStart, HeadOk;
    ReDict(items);
    BareDict(items, k);
    if items == [] {
      EmptyDict(k);
    } else {
      var it := items[0];
      var rest := PrintItems(items[1..], false, Cons(RBrc, k));
      ReadItems(items[1..], k);
      ReItemsCons(items);
      ReItemParts(it);
      RestStart(items[1..], k);
      WfItemParts(it);
      if it.key.None? {
        ReadExpr(it.value, 7, rest);
        DictStarGlue(Print(it.value, 7, rest), Reparse(it.value), rest, ReItems(items[1..]), k);
      } else {
        var v := Print(it.value, 1, rest);
        ReadExpr(it.value, 1, rest);
        ReadExpr(it.key.value, 1, Cons(Colon, v));
        NoCloser(Print(it.key.value, 1, Cons(Colon, v)));
        DictGlue(Print(it.key.value, 1, Cons(Colon, v)), Reparse(it.key.value), v, Reparse(it.value), rest,
          ReItems(items[1..]), k);
      }
    }
  }

  lemma RestStart(items: seq<DictItem>, k: Toks)
    ensures var rest := PrintItems(items, false, Cons(RBrc, k));
            Fits(1, rest) && !CompForStart(rest)
  {
    hide PrintItem;
  }

  lemma EmptyDict(k: Toks)
    ensures ParseAtom(Cons(LBrc, PrintItems([], true, Cons(RBrc, k)))) == Ok(Dict([]), k)
    ensures ReItems([]) == Some([])
  {
  }

  lemma ReItemsCons(items: seq<DictItem>)
    ensures ReItems(items) ==
      if items == [] then Some([])
      else if ReItem(items[0]).None? || ReItems(items[1..]).None? then None
      else Some([ReItem(items[0]).value] + ReItems(items[1..]).value)
  {
    hide ReItem;
  }

  lemma ReItemParts(it: DictItem)
    ensures ReItem(it) ==
      if Reparse(it.value).None? || (it.key.Some? && Reparse(it.key.value).None?) then None
      else Some(DictItem(if it.key.None? then None else Reparse(it.key.value), Reparse(it.value).value))
  {
    hide Reparse;
  }

  lemma ReDict(items: seq<DictItem>)
    ensures Reparse(Dict(items)) == match ReItems(items) case None => None case Some(xs) => Some(Dict(xs))
  {
    hide ReAll, ReOpt, ReArgs, ReItems, ReGens, ReComparisons, ReKeywords, ReSlice;
  }

  // ----- yield -----

  lemma {:induction false} ReadTestlist(v: Expr, k: Toks)
    requires WfElt(v) && Fits(1, k) && !At0(k, Comma)
    ensures ParseTestlist(Print(v, 0, k)) == Of(Reparse(v), k)
    ensures TargetStart(Print(v, 0, k))
    decreases v, 27
  {
    hide Print, Reparse, ReAll, ParseTestlist, ParseStarOrExpr, TestlistTail, Starter;
    if v.Tuple? && |v.telts| >= 2 {
      var es := v.telts;
      assert Wf(v) && WfElts(es);
      BareAt(v, 0, k);
      BareTuple(es, k);
      TailJoin(Comma, es, 1, k);
      ReadElt(es[0], PrintTail(Comma, es[1..], 1, k));
      ReadTestTail(es[1..], k);
      ReTuple(es);
      ReAllCons(es);
      TailJoin(Comma, es[1..], 1, k);
      TestlistGlue(Print(v, 0, k), Reparse(es[0]), PrintTail(Comma, es[1..], 1, k), ReAll(es[1..]), k);
    } else {
      AtZero(v, k);
      ReadElt(v, k);
      TestlistOne(Print(v, 1, k), Reparse(v), k);
    }
  }

  lemma TestlistOne(t: Toks, r: Option<Expr>, k: Toks)
    requires ParseStarOrExpr(t) == Of(r, k) && !At0(k, Comma)
    ensures ParseTestlist(t) == Of(r, k)
  {
    hide ParseStarOrExpr;
  }

  lemma TestlistGlue(t: Toks, f: Option<Expr>, u: Toks, es: Option<seq<Expr>>, k: Toks)
    requires ParseStarOrExpr(t) == Of(f, u) && At0(u, Comma) && TestlistTail(u) == Of(es, k)
    ensures ParseTestlist(t) == match Both(f, es) case None => Err case Some(x) => Ok(Tuple([x.0] + x.1), k)
  {
    hide ParseStarOrExpr, TestlistTail;
  }

  lemma AtZero(v: Expr, k: Toks)
    requires v.Tuple? ==> |v.telts| <= 1
    ensures Print(v, 0, k) == Print(v, 1, k)
  {
    hide Bare, Wrapped;
  }

  lemma {:induction false} ReadTestTail(es: seq<Expr>, k: Toks)
    requires WfElts(es) && Fits(1, k) && !At0(k, Comma)
    ensures TestlistTail(PrintTail(Comma, es, 1, k)) == Of(ReAll(es), k)
    decreases es
  {
    hide Print, Reparse, ParseStarOrExpr;
    if es != [] {
      ReadElt(es[0], PrintTail(Comma, es[1..], 1, k));
      ReadTestTail(es[1..], k);
    }
  }

  lemma StartsValue(t: Toks)
    requires TargetStart(t)
    ensures !YieldTerminator(t.hd) && !ListTerminator(t.hd) && !IsKw(t, KwFrom)
  {
  }

  lemma YieldGlue(t: Toks, v: Option<Expr>, r: Toks)
    requires t.Cons? && !YieldTerminator(t.hd) && !IsKw(t, KwFrom) && ParseTestlist(t) == Of(v, r)
    ensures ParseExpr(Cons(Nm(KwYield), t)) == match v case None => Err case Some(x) => Ok(Yield(v), r)
  {
    hide ParseTestlist, ParseTernary;
  }

  lemma YieldNone(k: Toks)
    ensures ParseExpr(Cons(Nm(KwYield), Cons(RPar, k))) == Ok(Yield(None), Cons(RPar, k))
  {
    hide ParseTernary;
  }

  lemma BareYield(v: Option<Expr>, k: Toks)
    ensures Bare(Yield(v), k) ==
      Cons(LPar, Cons(Nm(KwYield), match v case None => Cons(RPar, k) case Some(x) => Print(x, 0, Cons(RPar, k))))
  {
    hide Print;
  }

  lemma AtomParen(t: Toks)
    ensures ParseAtom(Cons(LPar, t)) == ParseParenAtom(t)
  {
    hide ParseParenAtom;
  }

  lemma {:induction false} NativeYield(v: Option<Expr>, k: Toks)
    requires WfOpt(v)
    ensures ParseAtom(Bare(Yield(v), k)) == Of(Reparse(Yield(v)), k)
    decreases Yield(v), 1
  {
    hide Print, Bare, Reparse, ParseExpr, ParseAtom, ParseTestlist;
    BareYield(v, k);
    ReYield(v);
    match v
    case None =>
      YieldNone(k);
      YieldAtom(Cons(RPar, k), Some(Yield(None)), k);
    case Some(x) =>
      ReadYielded(x, k);
      YieldAtom(Print(x, 0, Cons(RPar, k)), match Reparse(x) case None => None case Some(y) => Some(Yield(Some(y))), k);
  }

  lemma {:induction false} ReadYielded(x: Expr, k: Toks)
    requires WfElt(x)
    ensures ParseExpr(Cons(Nm(KwYield), Print(x, 0, Cons(RPar, k)))) ==
            match Reparse(x) case None => Err case Some(y) => Ok(Yield(Some(y)), Cons(RPar, k))
    decreases x, 28
  {
    hide Print, Reparse, ParseExpr, ParseTestlist, Wf, Starter;
    var t := Print(x, 0, Cons(RPar, k));
    ReadTestlist(x, Cons(RPar, k));
    StartsValue(t);
    YieldGlue(t, Reparse(x), Cons(RPar, k));
  }

  /** A yield in its parentheses. */
  lemma YieldAtom(t: Toks, y: Option<Expr>, k: Toks)
    requires ParseExpr(Cons(Nm(KwYield), t)) == Of(y, Cons(RPar, k))
    ensures ParseAtom(Cons(LPar, Cons(Nm(KwYield), t))) == Of(y, k)
  {
    hide ParseExpr, ParseAtom, ParseParenAtom;
    StarlessElt(Cons(Nm(KwYield), t));
    ParenGlue(Cons(Nm(KwYield), t), y, k);
    AtomParen(Cons(Nm(KwYield), t));
  }

  lemma ReYield(v: Option<Expr>)
    ensures Reparse(Yield(v)) ==
      match v
      case None => Some(Yield(None))
      case Some(x) => match Reparse(x) case None => None case Some(x') => Some(Yield(Some(x')))
  {
    hide ReAll, ReArgs, ReItems, ReGens, ReComparisons, ReKeywords, ReSlice;
  }

  lemma BareYieldFrom(x: Expr, k: Toks)
    ensures Bare(YieldFrom(x), k) == Cons(LPar, Cons(Nm(KwYield), Cons(Nm(KwFrom), Print(x, 1, Cons(RPar, k)))))
  {
    hide Print;
  }

  lemma YieldFromGlue(t: Toks)
    ensures ParseExpr(Cons(Nm(KwYield), Cons(Nm(KwFrom), t))) ==
      match ParseExpr(t) case Err => Err case Ok(v, r) => Ok(YieldFrom(v), r)
  {
    hide ParseTernary, ParseTestlist;
    var y := Cons(Nm(KwYield), Cons(Nm(KwFrom), t));
    assert y.tl.tl == t;
    assert ParseExpr(y) == ParseYield(y);
  }

  lemma {:induction false} NativeYieldFrom(x: Expr, k: Toks)
    requires Wf(x)
    ensures ParseAtom(Bare(YieldFrom(x), k)) == Of(Reparse(YieldFrom(x)), k)
    decreases YieldFrom(x), 1
  {
    hide Print, Bare, Reparse, ParseExpr, ParseAtom, ParseParenAtom;
    var t := Print(x, 1, Cons(RPar, k));
    var y := Cons(Nm(KwYield), Cons(Nm(KwFrom), t));
    BareYieldFrom(x, k);
    ReYieldFrom(x);
    ReadExpr(x, 1, Cons(RPar, k));
    YieldFromGlue(t);
    StarlessElt(y);
    ParenGlue(y, Reparse(YieldFrom(x)), k);
    AtomParen(y);
  }

  lemma ReYieldFrom(x: Expr)
    ensures Reparse(YieldFrom(x)) == match Reparse(x) case None => None case Some(x') => Some(YieldFrom(x'))
  {
    hide ReAll, ReOpt, ReArgs, ReItems, ReGens, ReComparisons, ReKeywords, ReSlice;
  }

  // ----- lambda parameters -----

  /** What the parameter loop collects from positional parameter i on, given what it has. */
  function ReadPos(a: Arguments, i: nat, acc: Arguments): Option<Arguments>
    requires i <= PosCount(a)
    decreases PosCount(a) - i
  {
    if i == PosCount(a) then ReadKw(a, 0, acc.(vararg := a.vararg))
    else
      var d :- ReOpt(PosDefault(a, i));
      var acc1 := AddParam(acc, false, Positional(a, i), d);
      ReadPos(a, i + 1, if i + 1 == |a.posonly| then acc1.(posonly := acc1.args, args := []) else acc1)
  }

  function ReadKw(a: Arguments, i: nat, acc: Arguments): Option<Arguments>
    requires i <= |a.kwonly|
    decreases |a.kwonly| - i
  {
    if i == |a.kwonly| then Some(acc.(kwarg := a.kwarg))
    else
      var d :- ReOpt(KwDefault(a, i));
      ReadKw(a, i + 1, AddParam(acc, true, a.kwonly[i], d))
  }

  predicate ParamEnd(k: Toks) {
    At0(k, Comma) || At0(k, Colon)
  }

  function PrintDefault(d: Option<Expr>, k: Toks): Toks {
    if d.Some? then Cons(Assign, Print(d.value, 1, k)) else k
  }

  lemma {:induction false} LambdaParam(acc: Arguments, kwonly: bool, v: Param, d: Option<Expr>, k: Toks)
    requires v.ann.None? && ParamEnd(k)
    requires d.Some? ==> ParseExpr(Print(d.value, 1, k)) == Of(Reparse(d.value), k)
    ensures LambdaArgs(acc, kwonly, PrintParam(v, PrintDefault(d, k))) ==
      match ReOpt(d) case None => Err case Some(d') => LambdaNext(AddParam(acc, kwonly, v, d'), kwonly, k)
  {
    hide Print, Reparse, ParseExpr, LambdaNext, AddParam;
    var u := PrintDefault(d, k);
    assert PrintParam(v, u) == Cons(Nm(Ident(v.name)), u);
    if d.Some? {
      ReOptSome(d.value);
    } else {
      ReOptNone();
    }
    assert ParseDefault(u) == Of(ReOpt(d), k);
    LambdaParamGlue(acc, kwonly, v, u, ReOpt(d), k);
  }

  lemma LambdaParamGlue(acc: Arguments, kwonly: bool, v: Param, u: Toks, d: Option<Option<Expr>>, k: Toks)
    requires v.ann.None? && ParseDefault(u) == Of(d, k)
    ensures LambdaArgs(acc, kwonly, Cons(Nm(Ident(v.name)), u)) ==
      match d case None => Err case Some(d') => LambdaNext(AddParam(acc, kwonly, v, d'), kwonly, k)
  {
    hide ParseDefault, LambdaNext, AddParam;
    var t := Cons(Nm(Ident(v.name)), u);
    assert ParseAttrName(t) == Ok(v.name, u);
    assert Param(v.name, None) == v;
    assert LambdaArg(acc, kwonly, t) ==
      match d case None => Err case Some(d') => Ok((AddParam(acc, kwonly, v, d'), kwonly), k);
  }

  lemma WfOptsAt(os: seq<Option<Expr>>, i: nat)
    requires WfOpts(os) && i < |os|
    ensures WfOpt(os[i])
    decreases os
  {
    if i > 0 {
      WfOptsAt(os[1..], i - 1);
    }
  }

  lemma WfAllAt(es: seq<Expr>, i: nat)
    requires WfAll(es) && i < |es|
    ensures Wf(es[i])
    decreases es
  {
    if i > 0 {
      WfAllAt(es[1..], i - 1);
    }
  }

  /** The end of the parameters of a lambda: its colon, after a comma or not. */
  predicate LambdaEnd(k: Toks) {
    At0(k, Colon) || (At0(k, Comma) && At0(Rest(k), Colon))
  }

  function AtColon(k: Toks): Toks {
    if At0(k, Comma) then Rest(k) else k
  }

  predicate HasParams(a: Arguments) {
    PosCount(a) > 0 || a.vararg.Some? || a.kwonly != [] || a.kwarg.Some?
  }

  lemma LambdaDone(acc: Arguments, kwonly: bool, k: Toks)
    requires LambdaEnd(k)
    ensures LambdaNext(acc, kwonly, k) == Ok(acc, AtColon(k))
  {
    hide LambdaArg;
  }

  lemma KwStart(a: Arguments, i: nat, k: Toks)
    requires i <= |a.kwonly| && LambdaEnd(k)
    ensures ParamEnd(PrintKwOnly(a, i, false, k))
  {
    hide Print, PrintParam;
  }

  lemma PrintKwStep(a: Arguments, i: nat, first: bool, k: Toks)
    requires i < |a.kwonly|
    ensures PrintKwOnly(a, i, first, k) ==
      Sep(first, PrintParam(a.kwonly[i], PrintDefault(KwDefault(a, i), PrintKwOnly(a, i + 1, false, k))))
  {
    hide Print, PrintParam, KwDefault;
  }

  lemma {:induction false} ReadKwOnly(a: Arguments, i: nat, acc: Arguments, kwonly: bool, k: Toks)
    requires WfLambdaArgs(a) && i <= |a.kwonly| && LambdaEnd(k)
    requires i < |a.kwonly| ==> kwonly
    requires acc.kwarg.None?
    ensures LambdaNext(acc, kwonly, PrintKwOnly(a, i, false, k)) == Of(ReadKw(a, i, acc), AtColon(k))
    decreases a, 1, |a.kwonly| - i
  {
    hide Print, Reparse, PrintParam, PrintDefault, LambdaArgs, AddParam, ReOpt;
    if i == |a.kwonly| {
      if a.kwarg.Some? {
        LambdaKwarg(acc, kwonly, a.kwarg.value, k);
        assert Param(a.kwarg.value.name, None) == a.kwarg.value;
      } else {
        LambdaDone(acc, kwonly, k);
      }
    } else {
      var rest := PrintKwOnly(a, i + 1, false, k);
      PrintKwStep(a, i, false, k);
      WfOptsAt(a.kwdefaults, i);
      KwStart(a, i + 1, k);
      assert a.kwonly[i] in a.kwonly;
      if a.kwdefaults[i].Some? {
        ReadExpr(a.kwdefaults[i].value, 1, rest);
      }
      LambdaParam(acc, true, a.kwonly[i], KwDefault(a, i), rest);
      match ReOpt(KwDefault(a, i))
      case None =>
      case Some(d) =>
        var acc1 := AddParam(acc, true, a.kwonly[i], d);
        AddKeeps(acc, true, a.kwonly[i], d);
        ReadKwOnly(a, i + 1, acc1, true, k);
    }
  }

  lemma AddKeeps(acc: Arguments, kwonly: bool, v: Param, d: Option<Expr>)
    ensures AddParam(acc, kwonly, v, d).kwarg == acc.kwarg
    ensures AddParam(acc, kwonly, v, d).vararg == acc.vararg
  {
  }

  lemma LambdaKwarg(acc: Arguments, kwonly: bool, v: Param, k: Toks)
    requires v.ann.None? && LambdaEnd(k)
    ensures LambdaArgs(acc, kwonly, Cons(DStar, PrintParam(v, k))) == Ok(acc.(kwarg := Some(v)), AtColon(k))
  {
    var t := Cons(Nm(Ident(v.name)), k);
    assert PrintParam(v, k) == t;
    assert Param(v.name, None) == v;
    assert ParseAttrName(t) == Ok(v.name, k);
    assert LambdaArg(acc, kwonly, Cons(DStar, t)) == Ok((acc.(kwarg := Some(v)), kwonly), k);
    LambdaDone(acc.(kwarg := Some(v)), kwonly, k);
  }

  /** After the positional parameters; `first` when there are none. */
  lemma {:induction false} ReadStar(a: Arguments, acc: Arguments, first: bool, k: Toks)
    requires WfLambdaArgs(a) && LambdaEnd(k)
    requires acc.kwarg.None? && acc.vararg.None?
    requires first && At0(k, Comma) ==> a.vararg.Some? || a.kwonly != [] || a.kwarg.Some?
    ensures var r := Of(ReadKw(a, 0, acc.(vararg := a.vararg)), AtColon(k));
            (if first then LambdaArgs(acc, false, PrintStar(a, first, k))
              else LambdaNext(acc, false, PrintStar(a, first, k))) == r
    ensures !first ==> ParamEnd(PrintStar(a, first, k))
    decreases a, 2
  {
    hide Print, Reparse, PrintParam, PrintKwOnly, ReadKw, LambdaArgs;
    match a.vararg
    case Some(v) =>
      ReadKwOnly(a, 0, acc.(vararg := a.vararg), true, k);
      LambdaVararg(acc, v, PrintKwOnly(a, 0, false, k));
    case None =>
      assert acc.(vararg := a.vararg) == acc;
      if a.kwonly == [] {
        ReadKwOnly(a, 0, acc, false, k);
        if first {
          KwargFirst(a, acc, k);
        }
        KwStart(a, 0, k);
      } else {
        ReadKwOnly(a, 0, acc, true, k);
        KwStart(a, 0, k);
        LambdaBareStar(acc, PrintKwOnly(a, 0, false, k));
      }
  }

  lemma LambdaVararg(acc: Arguments, v: Param, k: Toks)
    requires v.ann.None?
    ensures LambdaArgs(acc, false, Cons(Star, PrintParam(v, k))) == LambdaNext(acc.(vararg := Some(v)), true, k)
  {
    hide LambdaNext;
    var t := Cons(Nm(Ident(v.name)), k);
    assert PrintParam(v, k) == t;
    assert Param(v.name, None) == v;
    assert ParseAttrName(t) == Ok(v.name, k);
    assert LambdaArg(acc, false, Cons(Star, t)) == Ok((acc.(vararg := Some(v)), true), k);
  }

  lemma LambdaBareStar(acc: Arguments, t: Toks)
    requires ParamEnd(t)
    ensures LambdaArgs(acc, false, Cons(Star, t)) == LambdaNext(acc, true, t)
  {
    hide LambdaNext;
    assert LambdaArg(acc, false, Cons(Star, t)) == Ok((acc, true), t);
  }

  lemma KwargFirst(a: Arguments, acc: Arguments, k: Toks)
    requires a.kwonly == [] && LambdaEnd(k) && (At0(k, Comma) ==> a.kwarg.Some?)
    ensures LambdaArgs(acc, false, PrintKwOnly(a, 0, true, k)) == LambdaNext(acc, false, PrintKwOnly(a, 0, false, k))
  {
    hide PrintParam, LambdaArg;
    if a.kwarg.Some? {
      hide LambdaArgs;
    }
  }

  function SlashIf(slash: bool, k: Toks): Toks {
    if slash then Cons(Comma, Cons(Slash, k)) else k
  }

  lemma PrintPosStep(a: Arguments, i: nat, k: Toks)
    requires i < PosCount(a)
    ensures PrintPositional(a, i, k) ==
      Sep(i == 0, PrintParam(Positional(a, i), PrintDefault(PosDefault(a, i),
        SlashIf(i + 1 == |a.posonly|, PrintPositional(a, i + 1, k)))))
  {
    hide Print, PrintParam, PosDefault, Positional;
  }

  lemma PrintPosEnd(a: Arguments, i: nat, k: Toks)
    requires i == PosCount(a)
    ensures PrintPositional(a, i, k) == PrintStar(a, i == 0, k)
  {
    hide Print, PrintParam, PosDefault, Positional, PrintStar;
  }

  lemma LambdaSlash(acc: Arguments, k: Toks)
    ensures LambdaNext(acc, false, Cons(Comma, Cons(Slash, k))) ==
            LambdaNext(acc.(posonly := acc.args, args := []), false, k)
  {
    var t := Cons(Slash, k);
    assert LambdaArg(acc, false, t) == Ok((acc.(posonly := acc.args, args := []), false), k);
    assert LambdaArgs(acc, false, t) == LambdaNext(acc.(posonly := acc.args, args := []), false, k) by {
      hide LambdaNext;
    }
  }

  lemma PositionalPlain(a: Arguments, i: nat)
    requires WfLambdaArgs(a) && i < PosCount(a)
    ensures Positional(a, i).ann.None? && WfOpt(PosDefault(a, i))
  {
    if i < |a.posonly| {
      assert a.posonly[i] in a.posonly;
    } else {
      assert a.args[i - |a.posonly|] in a.args;
    }
    var j := i - (PosCount(a) - |a.defaults|);
    if j >= 0 {
      WfAllAt(a.defaults, j);
    }
  }

  lemma {:induction false} ReadPositional(a: Arguments, i: nat, acc: Arguments, k: Toks)
    requires WfLambdaArgs(a) && i <= PosCount(a) && LambdaEnd(k)
    requires acc.kwarg.None? && acc.vararg.None?
    requires i == 0 && At0(k, Comma) ==> HasParams(a)
    ensures (if i == 0 then LambdaArgs(acc, false, PrintPositional(a, i, k))
             else LambdaNext(acc, false, PrintPositional(a, i, k))) == Of(ReadPos(a, i, acc), AtColon(k))
    ensures i > 0 ==> ParamEnd(PrintPositional(a, i, k))
    decreases a, 3, PosCount(a) - i
  {
    hide Print, Reparse, PrintParam, PrintDefault, PrintPositional, PrintStar, LambdaArgs, LambdaNext, AddParam,
      ReOpt, ReadKw, PosDefault, Positional;
    if i == PosCount(a) {
      PrintPosEnd(a, i, k);
      ReadStar(a, acc, i == 0, k);
    } else {
      var slash := i + 1 == |a.posonly|;
      var rest := PrintPositional(a, i + 1, k);
      var v, d := Positional(a, i), PosDefault(a, i);
      PrintPosStep(a, i, k);
      PositionalPlain(a, i);
      var d' := if ReOpt(d).Some? then ReOpt(d).value else None;
      var acc1 := AddParam(acc, false, v, d');
      AddKeeps(acc, false, v, d');
      ReadPositional(a, i + 1, if slash then acc1.(posonly := acc1.args, args := []) else acc1, k);
      LambdaSlash(acc1, rest);
      if d.Some? {
        DefaultSmaller(a, i);
        ReadExpr(d.value, 1, SlashIf(slash, rest));
      }
      LambdaParam(acc, false, v, d, SlashIf(slash, rest));
      SepNext(acc, PrintParam(v, PrintDefault(d, SlashIf(slash, rest))));
    }
  }

  lemma SepNext(acc: Arguments, t: Toks)
    ensures LambdaNext(acc, false, Cons(Comma, t)) == LambdaArgs(acc, false, t)
  {
    hide LambdaArgs;
  }

  lemma DefaultSmaller(a: Arguments, i: nat)
    requires i < PosCount(a)
    ensures PosDefault(a, i).Some? ==> PosDefault(a, i).value in a.defaults
  {
  }

  // ----- what the loop collects is the list with its defaults re-read -----

  lemma ReOptsCons(os: seq<Option<Expr>>)
    ensures os == [] ==> ReOpts(os) == Some([])
    ensures os != [] ==>
      (ReOpts(os) ==
       match Both(ReOpt(os[0]), ReOpts(os[1..])) case None => None case Some(x) => Some([x.0] + x.1))
  {
    hide ReOpt;
  }

  /** The list with keyword-only parameters i.. and their re-read defaults added. */
  function WithKw(a: Arguments, i: nat, acc: Arguments, ds: seq<Option<Expr>>): Arguments
    requires i <= |a.kwonly|
  {
    acc.(kwonly := acc.kwonly + a.kwonly[i..], kwdefaults := acc.kwdefaults + ds, kwarg := a.kwarg)
  }

  lemma ReadKwAll(a: Arguments, i: nat, acc: Arguments)
    requires i <= |a.kwonly| && |a.kwdefaults| == |a.kwonly|
    ensures ReadKw(a, i, acc) ==
      match ReOpts(a.kwdefaults[i..]) case None => None case Some(ds) => Some(WithKw(a, i, acc, ds))
    decreases |a.kwonly| - i
  {
    hide ReOpt, ReOpts;
    ReOptsCons(a.kwdefaults[i..]);
    if i == |a.kwonly| {
      assert acc.kwonly + a.kwonly[i..] == acc.kwonly;
      assert acc.kwdefaults + [] == acc.kwdefaults;
    } else {
      assert a.kwdefaults[i..][1..] == a.kwdefaults[i + 1..];
      if ReOpt(a.kwdefaults[i]).Some? {
        var d := ReOpt(a.kwdefaults[i]).value;
        var acc1 := AddParam(acc, true, a.kwonly[i], d);
        ReadKwAll(a, i + 1, acc1);
        if ReOpts(a.kwdefaults[i + 1..]).Some? {
          var ds := ReOpts(a.kwdefaults[i + 1..]).value;
          assert acc1.kwonly + a.kwonly[i + 1..] == acc.kwonly + a.kwonly[i..];
          assert acc1.kwdefaults + ds == acc.kwdefaults + ([d] + ds);
          assert WithKw(a, i + 1, acc1, ds) == WithKw(a, i, acc, [d] + ds);
        }
      }
    }
  }

  /** How many defaults belong to the first i positional parameters. */
  function Used(a: Arguments, i: nat): nat
    requires |a.defaults| <= PosCount(a)
  {
    var off := PosCount(a) - |a.defaults|;
    if i <= off then 0 else i - off
  }

  /** The list collected so far, completed with parameters i.. and the re-read defaults ds. */
  function Complete(a: Arguments, i: nat, acc: Arguments, ds: seq<Expr>): Arguments
    requires i <= PosCount(a)
  {
    var n0 := |a.posonly|;
    var acc1 := acc.(vararg := a.vararg, defaults := acc.defaults + ds);
    if i < n0 then acc1.(posonly := acc.args + a.posonly[i..], args := a.args)
    else acc1.(args := acc.args + a.args[i - n0..])
  }

  lemma ReadPosAll(a: Arguments, i: nat, acc: Arguments)
    requires WfLambdaArgs(a) && i <= PosCount(a)
    ensures ReadPos(a, i, acc) ==
      match ReAll(a.defaults[Used(a, i)..])
      case None => None
      case Some(ds) => ReadKw(a, 0, Complete(a, i, acc, ds))
    decreases PosCount(a) - i
  {
    hide Reparse, ReadKw, ReOpt, ReAll, Complete;
    var rest := a.defaults[Used(a, i)..];
    if i == PosCount(a) {
      assert rest == [];
      ReAllEmpty();
      CompleteEnd(a, acc);
    } else {
      var d := PosDefault(a, i);
      if d.Some? {
        assert rest[0] == d.value && rest[1..] == a.defaults[Used(a, i + 1)..];
        ReAllCons(rest);
        ReOptSome(d.value);
      } else {
        assert Used(a, i) == Used(a, i + 1);
        ReOptNone();
      }
      if ReOpt(d).Some? {
        var d' := ReOpt(d).value;
        var acc1 := AddParam(acc, false, Positional(a, i), d');
        var acc2 := if i + 1 == |a.posonly| then acc1.(posonly := acc1.args, args := []) else acc1;
        ReadPosAll(a, i + 1, acc2);
        var rest' := a.defaults[Used(a, i + 1)..];
        if ReAll(rest').Some? {
          CompleteStep(a, i, acc, d', ReAll(rest').value);
          assert [] + ReAll(rest').value == ReAll(rest').value;
        }
      }
    }
  }

  lemma CompleteEnd(a: Arguments, acc: Arguments)
    ensures Complete(a, PosCount(a), acc, []) == acc.(vararg := a.vararg)
  {
    assert acc.args + a.args[|a.args|..] == acc.args;
    assert acc.defaults + [] == acc.defaults;
  }

  lemma CompleteStep(a: Arguments, i: nat, acc: Arguments, d: Option<Expr>, ds: seq<Expr>)
    requires i < PosCount(a)
    ensures var acc1 := AddParam(acc, false, Positional(a, i), d);
            var acc2 := if i + 1 == |a.posonly| then acc1.(posonly := acc1.args, args := []) else acc1;
            Complete(a, i + 1, acc2, ds) == Complete(a, i, acc, (if d.Some? then [d.value] else []) + ds)
  {
    var d1 := if d.Some? then [d.value] else [];
    assert (acc.defaults + d1) + ds == acc.defaults + (d1 + ds);
    if i < |a.posonly| {
      Shift(acc.args, a.posonly, i);
      assert i + 1 == |a.posonly| ==> [] + a.args[0..] == a.args;
    } else {
      Shift(acc.args, a.args, i - |a.posonly|);
    }
  }

  lemma Shift<T>(xs: seq<T>, ys: seq<T>, i: nat)
    requires i < |ys|
    ensures (xs + [ys[i]]) + ys[i + 1..] == xs + ys[i..]
    ensures i + 1 == |ys| ==> xs + [ys[i]] == xs + ys[i..]
  {
    assert ys[i..] == [ys[i]] + ys[i + 1..];
  }

  lemma ReadPosIsReArgs(a: Arguments)
    requires WfLambdaArgs(a)
    ensures ReadPos(a, 0, NO_ARGS) == ReArgs(a)
  {
    hide Reparse, ReOpt;
    ReadPosAll(a, 0, NO_ARGS);
    assert a.defaults[Used(a, 0)..] == a.defaults;
    match ReAll(a.defaults)
    case None =>
    case Some(ds) =>
      var acc := Complete(a, 0, NO_ARGS, ds);
      assert acc == Arguments(a.posonly, a.args, ds, a.vararg, [], [], None) by {
        assert a.posonly[0..] == a.posonly && a.args[0..] == a.args;
        assert NO_ARGS.args + a.posonly[0..] == a.posonly && NO_ARGS.args + a.args[0..] == a.args;
        assert NO_ARGS.defaults + ds == ds;
      }
      ReadKwAll(a, 0, acc);
      assert a.kwdefaults[0..] == a.kwdefaults && [] + a.kwonly[0..] == a.kwonly;
      if ReOpts(a.kwdefaults).Some? {
        assert [] + ReOpts(a.kwdefaults).value == ReOpts(a.kwdefaults).value;
      }
  }

  lemma {:induction false} NativeLambda(ps: Arguments, b: Expr, k: Toks)
    requires WfLambdaArgs(ps) && Wf(b) && Fits(1, k)
    ensures ParseExpr(Bare(Lambda(ps, b), k)) == Of(Reparse(Lambda(ps, b)), k)
    decreases Lambda(ps, b), 1
  {
    hide Print, Reparse, ReArgs, ReadPos, PrintPositional, LambdaArgs, ParseTernary;
    var k1 := Cons(Colon, Print(b, 1, k));
    var t := PrintPositional(ps, 0, k1);
    assert Bare(Lambda(ps, b), k) == Cons(Nm(KwLambda), t);
    ReadPositional(ps, 0, NO_ARGS, k1);
    ReadPosIsReArgs(ps);
    ReadExpr(b, 1, k);
    ReLambda(ps, b);
    LambdaGlue(t, ReArgs(ps), Print(b, 1, k), Reparse(b), k);
  }

  lemma LambdaGlue(t: Toks, ps: Option<Arguments>, u: Toks, b: Option<Expr>, k: Toks)
    requires LambdaArgs(NO_ARGS, false, t) == Of(ps, Cons(Colon, u)) && ParseExpr(u) == Of(b, k)
    ensures ParseExpr(Cons(Nm(KwLambda), t)) ==
      match Both(ps, b) case None => Err case Some(x) => Ok(Lambda(x.0, x.1), k)
  {
    var y := Cons(Nm(KwLambda), t);
    assert ParseExpr(y) == ParseLambda(y);
    hide ParseExpr, LambdaArgs;
  }

  lemma ReLambda(ps: Arguments, b: Expr)
    ensures Reparse(Lambda(ps, b)) ==
      match Both(ReArgs(ps), Reparse(b)) case None => None case Some(x) => Some(Lambda(x.0, x.1))
  {
    hide ReAll, ReOpt, ReArgs, ReItems, ReGens, ReComparisons, ReKeywords, ReSlice;
  }

  /** Every form of expression, printed without parentheses, at the level that builds it. */
  lemma {:induction false} BareNative(e: Expr, k: Toks)
    requires Wf(e)
    requires !Packed(e)
    requires Fits(Native(e), k)
    ensures ParseAt(Native(e), Bare(e, k)) == Cont(Native(e), Of(Reparse(e), k))
    decreases e, 10
  {
    hide Bare, Reparse, ParseAt, Cont, ParseExpr, ParseCompare, ParseUnary, ParsePower, ParseTrailer, ParseAtom,
      TrailerTail;
    NamedLevels(Bare(e, k), Of(Reparse(e), k));
    if e.BoolOp? || e.BinOp? || e.UnaryOp? || e.Await? || e.Compare? || e.NamedExpr? || e.Lambda? || e.IfExp? {
      NativeOperator(e, k);
    } else if e.Call? || e.Attribute? || e.Subscript? {
      NativeTrailer(e, k);
    } else {
      NativeAtom(e, k);
    }
  }

  lemma {:induction false} NativeOperator(e: Expr, k: Toks)
    requires Wf(e) && Fits(Native(e), k)
    requires e.BoolOp? || e.BinOp? || e.UnaryOp? || e.Await? || e.Compare? || e.NamedExpr? || e.Lambda? || e.IfExp?
    ensures ParseAt(Native(e), Bare(e, k)) == Cont(Native(e), Of(Reparse(e), k))
    decreases e, 5
  {
    hide Bare, Reparse, ParseAt, Cont, ParseExpr, ParseCompare, ParseUnary, ParsePower, ParseTrailer, ParseAtom,
      TrailerTail;
    NamedLevels(Bare(e, k), Of(Reparse(e), k));
    match e
    case BoolOp(op, vs) => NativeBool(op, vs, k);
    case NamedExpr(t, v) => NativeNamed(t, v, k);
    case BinOp(op, l, r) =>
      if op != Pow {
        OpAtSym(op);
        NativeBin(op, l, r, k);
      } else if l.Await? {
        NativePowAwait(l.awaited, r, k);
      } else {
        NativePow(l, r, k);
      }
    case UnaryOp(op, x) => NativeUnary(op, x, k);
    case Lambda(ps, b) => NativeLambda(ps, b, k);
    case IfExp(t, b, o) => NativeIf(t, b, o, k);
    case Await(x) => NativeAwait(x, k);
    case Compare(l, cs) => NativeCompare(l, cs, k);
  }

  lemma {:induction false} NativeBrackets(e: Expr, k: Toks)
    requires Wf(e)
    requires e.ListComp? || e.SetComp? || e.GeneratorExp? || e.DictComp? || e.Yield? || e.YieldFrom?
    ensures ParseAtom(Bare(e, k)) == Of(Reparse(e), k)
    decreases e, 4, 0
  {
    hide Bare, Reparse, ParseAtom;
    if e.DictComp? {
      NativeDictComp(e.key, e.elt, e.gens, k);
    } else if e.Yield? {
      NativeYield(e.yvalue, k);
    } else if e.YieldFrom? {
      NativeYieldFrom(e.yfrom, k);
    } else {
      NativeComp(e, k);
    }
  }

  lemma WfParts(e: Expr)
    requires Wf(e)
    ensures e.Dict? ==> WfItems(e.items)
    ensures e.Set? ==> WfElts(e.selts)
    ensures e.ListExpr? ==> WfElts(e.lelts)
    ensures !e.Starred? && !e.Slice?
  {
    hide WfItems, WfElts;
  }

  lemma {:induction false} AtomForm(e: Expr, k: Toks)
    requires Wf(e) && Fits(16, k)
    requires !Packed(e)
    requires Native(e) == 16
    ensures ParseAtom(Bare(e, k)) == Of(Reparse(e), k)
    decreases e, 4, 1
  {
    hide Bare, Reparse, ParseAtom, Fits, Binds;
    WfParts(e);
    hide WfElts, WfItems;
    if e.Name? {
      NativeName(e, k);
    } else if e.Constant? {
      NativeConstant(e, k);
    } else if e.Dict? {
      NativeDict(e.items, k);
    } else if e.Set? {
      NativeSet(e.selts, k);
    } else if e.ListExpr? {
      NativeList(e.lelts, k);
    } else if e.Tuple? {
      NativeUnit(k);
    } else {
      NativeBrackets(e, k);
    }
  }

  lemma {:induction false} NativeAtom(e: Expr, k: Toks)
    requires Wf(e) && Fits(Native(e), k)
    requires !Packed(e)
    requires Native(e) == 16 || e.Set?
    ensures ParseAt(Native(e), Bare(e, k)) == Cont(Native(e), Of(Reparse(e), k))
    decreases e, 5
  {
    hide Bare, Reparse, ParseAt, Cont, ParseTrailer, ParseAtom, TrailerTail, Wf, Binds;
    NamedLevels(Bare(e, k), Of(Reparse(e), k));
    if e == Set([]) {
      EmptySet(k);
      ReEmptySet();
    } else {
      AtomForm(e, k);
    }
  }

  /** The levels that have names of their own. */
  lemma NamedLevels(t: Toks, r: Res<Expr>)
    ensures ParseAt(1, t) == ParseExpr(t) && ParseAt(6, t) == ParseCompare(t) && ParseAt(13, t) == ParseUnary(t)
    ensures ParseAt(14, t) == ParsePower(t) && ParseAt(15, t) == ParseTrailer(t) && ParseAt(16, t) == ParseAtom(t)
    ensures forall L {:trigger Cont(L, r)} :: L <= 6 || 13 <= L <= 14 || L == 16 ==> Cont(L, r) == r
    ensures Cont(15, r) == if r.Ok? then TrailerTail(r.v, r.rest) else Err
  {
    hide ParseExpr, ParseCompare, ParseUnary, ParsePower, ParseTrailer, ParseAtom;
  }

  lemma NativeUnit(k: Toks)
    ensures Bare(Tuple([]), k) == Cons(LPar, Cons(RPar, k))
    ensures ParseAtom(Bare(Tuple([]), k)) == Ok(Tuple([]), k)
    ensures Reparse(Tuple([])) == Some(Tuple([]))
  {
    hide Reparse, ReAll, Bare, ParseAtom;
    AtomParen(Cons(RPar, k));
    BareUnit(k);
    ReAllEmpty();
    ReTuple([]);
  }

  lemma BareUnit(k: Toks)
    ensures Bare(Tuple([]), k) == Cons(LPar, Cons(RPar, k))
  {
  }

  lemma ReEmptySet()
    ensures Reparse(Set([])) == Some(Call(Name("set"), [], []))
  {
  }

  lemma NativeName(e: Expr, k: Toks)
    requires e.Name?
    ensures ParseAtom(Bare(e, k)) == Of(Reparse(e), k)
  {
    var t := Cons(Nm(Ident(e.id)), k);
    assert Bare(e, k) == t;
    assert ParseAtom(t) == Ok(e, k);
  }

  lemma NativeConstant(e: Expr, k: Toks)
    requires e.Constant? && Fits(16, k)
    ensures ParseAtom(Bare(e, k)) == Of(Reparse(e), k)
  {
    var t := Cons(ConstTok(e.c), k);
    assert Bare(e, k) == t;
    assert ParseAtom(t) == Ok(e, k);
  }

  // ----- the theorem for whole expressions -----

  /** Printing a well-formed expression and parsing the text gives Reparse(e): the tree
      itself unless e has one of the shapes that Faithful excludes. */
  lemma UnparseParse(e: Expr)
    requires Wf(e)
    ensures ParseExpression(Print(e, P_TEST, End)) == Reparse(e)
  {
    hide Print, Reparse, ParseExpr;
    ReadExpr(e, 1, End);
  }
}
