/** Expressions as people write them and the printer does not: commas before a closing bracket or at the
    end of a line, joined strings, parentheses that could be left out, a generator as the only argument.
    The v2 parser reads each as the tree it stands for (section 6 of the Python Language Reference). */
module ExprSpellings {
  import opened Tokens
  import opened Ast
  import opened Unparse
  import opened Grammar
  import opened Reading
  import opened Descent
  import opened RoundTrip

  // ----- lists without brackets -----

  /** What a list without brackets may end at: a line, a semicolon, `=` or an operator with it, a colon, or
      a closing bracket. */
  predicate ListStop(k: Toks) {
    match k
    case End => true
    case Cons(x, _) =>
      x == Newline || x == Dedent || x == Semi || x == Assign || x.AugAssign? || x == Colon || x == RPar || x == RBrk
      || x == RBrc
  }

  lemma CommaFits(k: Toks)
    ensures Fits(1, Cons(Comma, k))
  {
  }

  lemma TestTailEnd(k: Toks)
    requires ListStop(k)
    ensures TestlistTail(Cons(Comma, k)) == Ok([], k)
  {
  }

  lemma TestTailMore(t: Toks, x: Option<Expr>, u: Toks)
    requires t.Cons? && !ListTerminator(t.hd) && ParseStarOrExpr(t) == Of(x, u)
    ensures TestlistTail(Cons(Comma, t)) ==
      match x
      case None => Err
      case Some(v) => match TestlistTail(u) case Err => Err case Ok(es, r) => Ok([v] + es, r)
  {
    hide ParseStarOrExpr;
  }

  /** No element ends the list it stands in. */
  lemma ElementHead(e: Expr, t: Toks)
    requires EltHead(e, t)
    ensures t.Cons? && !ListTerminator(t.hd) && t.hd != RPar && t.hd != RBrk && t.hd != RBrc && t.hd != DStar
  {
  }

  /** Elements with a comma after each, up to the end of the list. */
  lemma {:induction false} TestTailComma(es: seq<Expr>, k: Toks)
    requires WfElts(es) && ListStop(k)
    ensures TestlistTail(PrintTail(Comma, es, 1, Cons(Comma, k))) == Of(ReAll(es), k)
    decreases es
  {
    hide Print, Reparse, ReAll, ParseStarOrExpr, TestlistTail, WfElt, EltHead, ListTerminator, Starter, Fits;
    if es == [] {
      ReAllEmpty();
      TestTailEnd(k);
    } else {
      var rest := PrintTail(Comma, es[1..], 1, Cons(Comma, k));
      AfterElement(es[1..], Cons(Comma, k));
      ReadElt(es[0], rest);
      ElementHead(es[0], Print(es[0], 1, rest));
      TestTailComma(es[1..], k);
      ReAllCons(es);
      TestTailMore(Print(es[0], 1, rest), Reparse(es[0]), rest);
    }
  }

  /** What follows an element of a list with a comma at its end is a comma. */
  lemma AfterElement(es: seq<Expr>, k: Toks)
    requires At0(k, Comma)
    ensures var t := PrintTail(Comma, es, 1, k); At0(t, Comma) && Fits(1, t) && !CompForStart(t) && !At0(t, Colon)
  {
    hide Print;
    var t := PrintTail(Comma, es, 1, k);
    CommaFits(t.tl);
  }

  /** A list with a comma at its end, wherever a list without brackets may end: it is the tuple of its
      elements, of a single one too. */
  lemma TestlistComma(es: seq<Expr>, k: Toks)
    requires es != [] && WfElts(es) && ListStop(k)
    ensures ParseTestlist(PrintJoin(Comma, es, 1, Cons(Comma, k))) == Of(Reparse(Tuple(es)), k)
  {
    hide Print, Reparse, ReAll, ParseStarOrExpr, ParseTestlist, TestlistTail, WfElt, EltHead, ListTerminator, Fits;
    var rest := PrintTail(Comma, es[1..], 1, Cons(Comma, k));
    TailJoin(Comma, es, 1, Cons(Comma, k));
    AfterElement(es[1..], Cons(Comma, k));
    ReadElt(es[0], rest);
    TestTailComma(es[1..], k);
    ReTuple(es);
    ReAllCons(es);
    TestlistGlue(Print(es[0], 1, rest), Reparse(es[0]), rest, ReAll(es[1..]), k);
  }

  // ----- brackets -----

  lemma EltsEnd(close: Tok, k: Toks)
    ensures EltsTail(close, Cons(Comma, Cons(close, k))) == Ok([], Cons(close, k))
  {
  }

  lemma EltsMore(close: Tok, t: Toks, x: Option<Expr>, u: Toks)
    requires !At0(t, close) && ParseStarOrExpr(t) == Of(x, u)
    ensures EltsTail(close, Cons(Comma, t)) ==
      match x
      case None => Err
      case Some(v) => match EltsTail(close, u) case Err => Err case Ok(es, r) => Ok([v] + es, r)
  {
    hide ParseStarOrExpr;
  }

  lemma {:induction false} EltsComma(close: Tok, es: seq<Expr>, k: Toks)
    requires WfElts(es) && (close == RBrk || close == RBrc)
    ensures EltsTail(close, PrintTail(Comma, es, 1, Cons(Comma, Cons(close, k)))) == Of(ReAll(es), Cons(close, k))
    decreases es
  {
    hide Print, Reparse, ReAll, ParseStarOrExpr, EltsTail, WfElt, EltHead, ListTerminator, Starter, Fits;
    var end := Cons(Comma, Cons(close, k));
    if es == [] {
      ReAllEmpty();
      EltsEnd(close, k);
    } else {
      var rest := PrintTail(Comma, es[1..], 1, end);
      AfterElement(es[1..], end);
      ReadElt(es[0], rest);
      ElementHead(es[0], Print(es[0], 1, rest));
      EltsComma(close, es[1..], k);
      ReAllCons(es);
      EltsMore(close, Print(es[0], 1, rest), Reparse(es[0]), rest);
    }
  }

  /** `[a, b,]` and `{a, b,}`. */
  lemma DisplayComma(es: seq<Expr>, k: Toks)
    requires es != [] && WfElts(es)
    ensures ParseAtom(Cons(LBrk, PrintJoin(Comma, es, 1, Cons(Comma, Cons(RBrk, k))))) == Of(Reparse(ListExpr(es)), k)
    ensures ParseAtom(Cons(LBrc, PrintJoin(Comma, es, 1, Cons(Comma, Cons(RBrc, k))))) == Of(Reparse(Set(es)), k)
  {
    hide Print, Reparse, ReAll, ParseAtom, ParseStarOrExpr, EltsTail, WfElt, EltHead, ListTerminator, Fits,
      CompForStart;
    ListComma(es, k);
    SetComma(es, k);
  }

  lemma ListComma(es: seq<Expr>, k: Toks)
    requires es != [] && WfElts(es)
    ensures ParseAtom(Cons(LBrk, PrintJoin(Comma, es, 1, Cons(Comma, Cons(RBrk, k))))) == Of(Reparse(ListExpr(es)), k)
  {
    hide Print, Reparse, ReAll, ParseAtom, ParseStarOrExpr, EltsTail, WfElt, EltHead, ListTerminator, Fits,
      CompForStart;
    var end := Cons(Comma, Cons(RBrk, k));
    var rest := PrintTail(Comma, es[1..], 1, end);
    TailJoin(Comma, es, 1, end);
    AfterElement(es[1..], end);
    ReadElt(es[0], rest);
    ElementHead(es[0], Print(es[0], 1, rest));
    EltsComma(RBrk, es[1..], k);
    ReList(es);
    ReAllCons(es);
    ListGlue(Print(es[0], 1, rest), Reparse(es[0]), rest, ReAll(es[1..]), k);
  }

  lemma SetComma(es: seq<Expr>, k: Toks)
    requires es != [] && WfElts(es)
    ensures ParseAtom(Cons(LBrc, PrintJoin(Comma, es, 1, Cons(Comma, Cons(RBrc, k))))) == Of(Reparse(Set(es)), k)
  {
    hide Print, Reparse, ReAll, ParseAtom, ParseStarOrExpr, EltsTail, WfElt, EltHead, ListTerminator, Fits,
      CompForStart;
    var end := Cons(Comma, Cons(RBrc, k));
    var rest := PrintTail(Comma, es[1..], 1, end);
    TailJoin(Comma, es, 1, end);
    AfterElement(es[1..], end);
    ReadElt(es[0], rest);
    ElementHead(es[0], Print(es[0], 1, rest));
    EltsComma(RBrc, es[1..], k);
    ReSet(es);
    ReAllCons(es);
    SetGlue(Print(es[0], 1, rest), Reparse(es[0]), rest, ReAll(es[1..]), k);
  }

  lemma ParenEnd(k: Toks)
    ensures ParenTail(Cons(RPar, k)) == Ok([], Cons(RPar, k))
  {
  }

  lemma ParenMore(t: Toks, x: Option<Expr>, u: Toks)
    requires !At0(t, RPar) && ParseStarOrExpr(t) == Of(x, Cons(Comma, u))
    ensures ParenTail(t) ==
      match x
      case None => Err
      case Some(v) => match ParenTail(u) case Err => Err case Ok(es, r) => Ok([v] + es, r)
  {
    hide ParseStarOrExpr;
  }

  lemma {:induction false} ParenComma(es: seq<Expr>, k: Toks)
    requires es != [] && WfElts(es)
    ensures ParenTail(PrintJoin(Comma, es, 1, Cons(Comma, Cons(RPar, k)))) == Of(ReAll(es), Cons(RPar, k))
    decreases es
  {
    hide Print, Reparse, ReAll, ParseStarOrExpr, ParenTail, WfElt, EltHead, ListTerminator, Starter, Fits;
    var end := Cons(Comma, Cons(RPar, k));
    var rest := PrintTail(Comma, es[1..], 1, end);
    TailJoin(Comma, es, 1, end);
    AfterElement(es[1..], end);
    ReadElt(es[0], rest);
    ElementHead(es[0], Print(es[0], 1, rest));
    ReAllCons(es);
    ParenMore(Print(es[0], 1, rest), Reparse(es[0]), rest.tl);
    if es[1..] == [] {
      ReAllEmpty();
      ParenEnd(k);
    } else {
      TailJoin(Comma, es[1..], 1, end);
      TailOf(es[1..], end);
      ParenComma(es[1..], k);
    }
  }

  lemma TailOf(es: seq<Expr>, k: Toks)
    requires es != []
    ensures PrintTail(Comma, es, 1, k) == Cons(Comma, PrintJoin(Comma, es, 1, k))
  {
    hide Print;
  }

  /** `(a, b,)`. */
  lemma TupleComma(es: seq<Expr>, k: Toks)
    requires es != [] && WfElts(es)
    ensures ParseAtom(Cons(LPar, PrintJoin(Comma, es, 1, Cons(Comma, Cons(RPar, k))))) == Of(Reparse(Tuple(es)), k)
  {
    hide Print, Reparse, ReAll, ParseAtom, ParseParenAtom, ParseStarOrExpr, ParenTail, WfElt, EltHead, ListTerminator,
      Fits;
    var end := Cons(Comma, Cons(RPar, k));
    var t := PrintJoin(Comma, es, 1, end);
    var rest := PrintTail(Comma, es[1..], 1, end);
    TailJoin(Comma, es, 1, end);
    AfterElement(es[1..], end);
    ReadElt(es[0], rest);
    ElementHead(es[0], t);
    ReTuple(es);
    ReAllCons(es);
    if es[1..] == [] {
      ReAllEmpty();
      ParenEnd(k);
    } else {
      TailOf(es[1..], end);
      ParenComma(es[1..], k);
    }
    ParenTupleGlue(t, Reparse(es[0]), rest.tl, ReAll(es[1..]), k);
    AtomParen(t);
  }

  /** Parentheses that could be left out: any expression, printed for any place, inside them. */
  lemma ParenAround(e: Expr, p: int, k: Toks)
    requires Wf(e) && 1 <= p <= 16
    ensures ParseAtom(Cons(LPar, Print(e, p, Cons(RPar, k)))) == Of(Reparse(e), k)
  {
    hide Print, Reparse, ParseAtom, ParseParenAtom, ParseExpr, ParseStarOrExpr, Wf, HeadOk, Fits;
    var t := Print(e, p, Cons(RPar, k));
    RParFits(k);
    ReadExpr(e, p, Cons(RPar, k));
    HeadNotClosed(t);
    ParenGlue(t, Reparse(e), k);
    AtomParen(t);
  }

  lemma RParFits(k: Toks)
    ensures Fits(1, Cons(RPar, k))
  {
  }

  lemma HeadNotClosed(t: Toks)
    requires HeadOk(1, t)
    ensures !At0(t, RPar) && !At0(t, RBrc)
  {
  }

  // ----- dictionaries -----

  lemma DictCommaEnd(k: Toks)
    ensures DictTail(Cons(Comma, Cons(RBrc, k))) == Ok([], Cons(RBrc, k))
  {
  }

  lemma ItemsText(items: seq<DictItem>, k: Toks)
    ensures PrintItems(items, false, Cons(Comma, k)) ==
      if items == [] then Cons(Comma, k)
      else Cons(Comma, PrintItem(items[0], PrintItems(items[1..], false, Cons(Comma, k))))
    ensures var t := PrintItems(items, false, Cons(Comma, k)); Fits(1, t) && At0(t, Comma) && !CompForStart(t)
  {
    hide PrintItem;
    CommaFits(PrintItems(items, false, Cons(Comma, k)).tl);
  }

  lemma {:induction false} ItemsComma(items: seq<DictItem>, k: Toks)
    requires WfItems(items)
    ensures DictTail(PrintItems(items, false, Cons(Comma, Cons(RBrc, k)))) == Of(ReItems(items), Cons(RBrc, k))
    decreases items
  {
    hide Print, PrintItem, PrintItems, Reparse, ReItem, ReItems, ParseDictItem, DictTail, Fits, WfItem, CompForStart;
    ReItemsCons(items);
    ItemsText(items, Cons(RBrc, k));
    if items == [] {
      DictCommaEnd(k);
    } else {
      var rest := PrintItems(items[1..], false, Cons(Comma, Cons(RBrc, k)));
      ItemsText(items[1..], Cons(RBrc, k));
      ReadItem(items[0], rest);
      ItemStart(items[0], rest);
      ItemsComma(items[1..], k);
      DictMore(PrintItem(items[0], rest));
    }
  }

  lemma ItemsFirst(items: seq<DictItem>, k: Toks)
    requires items != []
    ensures PrintItems(items, true, k) == PrintItem(items[0], PrintItems(items[1..], false, k))
  {
    hide PrintItem;
  }

  lemma ItemText(it: DictItem, k: Toks)
    ensures PrintItem(it, k) ==
      match it.key
      case None => Cons(DStar, Print(it.value, P_BIT_OR, k))
      case Some(key) => Print(key, P_TEST, Cons(Colon, Print(it.value, P_TEST, k)))
  {
    hide Print;
  }

  /** `{a: b, **c,}`. */
  lemma DictComma(items: seq<DictItem>, k: Toks)
    requires items != [] && WfItems(items)
    ensures ParseAtom(Cons(LBrc, PrintItems(items, true, Cons(Comma, Cons(RBrc, k))))) == Of(Reparse(Dict(items)), k)
  {
    hide Print, PrintItem, PrintItems, Reparse, ReItem, ReItems, ParseAtom, ParseExpr, ParseStarOrExpr, DictTail, Fits,
      Wf, HeadOk, CompForStart;
    var rest := PrintItems(items[1..], false, Cons(Comma, Cons(RBrc, k)));
    var it := items[0];
    WfItemParts(it);
    ItemsFirst(items, Cons(Comma, Cons(RBrc, k)));
    ItemsText(items[1..], Cons(RBrc, k));
    ItemText(it, rest);
    ItemsComma(items[1..], k);
    ReDict(items);
    ReItemsCons(items);
    ReItemParts(it);
    if it.key.None? {
      ReadExpr(it.value, 7, rest);
      ReOptNone();
      DictStarGlue(Print(it.value, 7, rest), Reparse(it.value), rest, ReItems(items[1..]), k);
    } else {
      var v := Print(it.value, 1, rest);
      ColonFits(v);
      ReadExpr(it.value, 1, rest);
      ReadExpr(it.key.value, 1, Cons(Colon, v));
      HeadPlain(Print(it.key.value, 1, Cons(Colon, v)));
      ReOptSome(it.key.value);
      DictGlue(Print(it.key.value, 1, Cons(Colon, v)), Reparse(it.key.value), v, Reparse(it.value), rest,
        ReItems(items[1..]), k);
    }
  }

  lemma ColonFits(k: Toks)
    ensures Fits(1, Cons(Colon, k))
  {
  }

  lemma HeadPlain(t: Toks)
    requires HeadOk(1, t)
    ensures !At0(t, RBrc) && !At0(t, DStar)
  {
  }

  // ----- calls -----

  lemma CallCommaEnd(a: CallArgs, k: Toks)
    ensures CallNext(a, Cons(Comma, Cons(RPar, k))) == Ok(a, k)
  {
    hide CallTail;
  }

  lemma KeywordsText(kws: seq<Keyword>, first: bool, k: Toks)
    requires kws != []
    ensures PrintKeywords(kws, first, k) == Sep(first, PrintKeyword(kws[0], PrintKeywords(kws[1..], false, k)))
    ensures PrintKeywords(kws, false, k) == Cons(Comma, PrintKeywords(kws, true, k))
  {
    hide PrintKeyword;
  }

  lemma KeywordsAfter(kws: seq<Keyword>, k: Toks)
    ensures var t := PrintKeywords(kws, false, Cons(Comma, k)); At0(t, Comma) && Fits(1, t)
  {
    hide PrintKeyword;
    CommaFits(PrintKeywords(kws, false, Cons(Comma, k)).tl);
  }

  lemma ReKeywordsCons(kws: seq<Keyword>)
    ensures ReKeywords(kws) ==
      if kws == [] then Some([])
      else if ReKeyword(kws[0]).None? || ReKeywords(kws[1..]).None? then None
      else Some([ReKeyword(kws[0]).value] + ReKeywords(kws[1..]).value)
  {
    hide ReKeyword;
  }

  lemma {:induction false} KeywordsComma(kws: seq<Keyword>, empty: bool, k: Toks)
    requires kws != [] && WfKeywords(kws)
    ensures var t := PrintKeywords(kws, true, Cons(Comma, Cons(RPar, k)));
            CallTail(empty, t) == OfCall(Some([]), ReKeywords(kws), k) && ArgHead(t)
    decreases kws
  {
    hide Print, PrintKeyword, PrintKeywords, CallTail, CallNext, ReKeyword, ReKeywords, WfKeyword, Fits, ArgHead;
    var end := Cons(Comma, Cons(RPar, k));
    var rest := PrintKeywords(kws[1..], false, end);
    KeywordsText(kws, true, end);
    KeywordsAfter(kws[1..], Cons(RPar, k));
    ReadKeyword(kws[0], empty, rest);
    ReKeywordsCons(kws);
    var kw := ReKeyword(kws[0]);
    if kws[1..] == [] {
      ReKeywordsCons([]);
      PrintNone(end);
      if kw.Some? {
        CallCommaEnd(CallArgs([], [kw.value]), k);
        assert [kw.value] + [] == [kw.value];
      }
    } else {
      KeywordsText(kws[1..], false, end);
      KeywordsComma(kws[1..], false, k);
      if kw.Some? {
        CallMore(CallArgs([], [kw.value]), PrintKeywords(kws[1..], true, end));
        var none: seq<Expr> := [];
        assert none + none == none;
      }
    }
  }

  lemma PrintNone(k: Toks)
    ensures PrintKeywords([], false, k) == k && PrintTail(Comma, [], 1, k) == k
  {
  }

  /** What follows the first positional argument, with a comma at the end of them all. */
  lemma ArgsAfter(args: seq<Expr>, kws: seq<Keyword>, k: Toks)
    ensures At0(PrintTail(Comma, args, 1, PrintKeywords(kws, false, Cons(Comma, k))), Comma)
  {
    hide Print, PrintKeywords;
    KeywordsAfter(kws, k);
  }

  lemma {:induction false} ArgsComma(args: seq<Expr>, kws: seq<Keyword>, empty: bool, k: Toks)
    requires args != [] && WfElts(args) && WfKeywords(kws)
    ensures var t := PrintJoin(Comma, args, 1, PrintKeywords(kws, false, Cons(Comma, Cons(RPar, k))));
            CallTail(empty, t) == OfCall(ReAll(args), ReKeywords(kws), k) && ArgHead(t)
    decreases args
  {
    hide Print, Reparse, ReAll, CallTail, CallNext, PrintKeywords, ReKeywords, WfElt, Fits, ArgHead, WfKeywords;
    var end := Cons(Comma, Cons(RPar, k));
    var tail := PrintKeywords(kws, false, end);
    var rest := PrintTail(Comma, args[1..], 1, tail);
    TailJoin(Comma, args, 1, tail);
    ArgsAfter(args[1..], kws, Cons(RPar, k));
    ReadArg(args[0], empty, rest);
    ReAllCons(args);
    var x := Reparse(args[0]);
    if args[1..] != [] {
      TailOf(args[1..], tail);
      ArgsComma(args[1..], kws, false, k);
      if x.Some? {
        CallMore(CallArgs([x.value], []), PrintJoin(Comma, args[1..], 1, tail));
        NothingBefore(ReKeywords(kws));
      }
    } else {
      ReAllEmpty();
      LastArgument(args[0], x, kws, k);
    }
  }

  lemma NothingBefore(kws: Option<seq<Keyword>>)
    ensures kws.Some? ==> [] + kws.value == kws.value
  {
  }

  /** The last positional argument, and the keywords after it. */
  lemma LastArgument(e: Expr, x: Option<Expr>, kws: seq<Keyword>, k: Toks)
    requires WfKeywords(kws)
    ensures x.Some? ==> CallNext(CallArgs([x.value], []), PrintKeywords(kws, false, Cons(Comma, Cons(RPar, k)))) ==
                        OfCall(Some([x.value] + []), ReKeywords(kws), k)
  {
    hide CallTail, CallNext, PrintKeywords, ReKeywords, ArgHead;
    if x.Some? {
      var end := Cons(Comma, Cons(RPar, k));
      assert [x.value] + [] == [x.value];
      if kws == [] {
        PrintNone(end);
        ReKeywordsCons([]);
        CallCommaEnd(CallArgs([x.value], []), k);
      } else {
        KeywordsText(kws, false, end);
        KeywordsComma(kws, false, k);
        CallMore(CallArgs([x.value], []), PrintKeywords(kws, true, end));
        NothingBefore(ReKeywords(kws));
      }
    }
  }

  /** `f(a, *b, c=d, **e,)`. */
  lemma CallComma(args: seq<Expr>, kws: seq<Keyword>, k: Toks)
    requires WfElts(args) && WfKeywords(kws) && (args != [] || kws != [])
    ensures ParseCallArgs(PrintJoin(Comma, args, 1, PrintKeywords(kws, args == [], Cons(Comma, Cons(RPar, k))))) ==
            OfCall(ReAll(args), ReKeywords(kws), k)
  {
    hide Print, CallTail, PrintKeywords, ReAll, ReKeywords, WfKeywords, WfElts;
    if args == [] {
      ReAllEmpty();
      KeywordsComma(kws, true, k);
    } else {
      ArgsComma(args, kws, true, k);
    }
  }

  /** `f(x for x in y)`: a generator that is the only argument needs no parentheses of its own. */
  lemma BareGenerator(x: Expr, gs: seq<Comprehension>, k: Toks)
    requires Wf(x) && gs != [] && WfGens(gs)
    ensures ParseCallArgs(Print(x, 1, PrintGens(gs, Cons(RPar, k)))) ==
            match Reparse(GeneratorExp(x, gs)) case None => Err case Some(g) => Ok(CallArgs([g], []), k)
  {
    hide Print, PrintGens, Reparse, ReGens, ParseExpr, ParseStarOrExpr, ParseGens, CompForStart, HeadOk, WfGens;
    var u := PrintGens(gs, Cons(RPar, k));
    var t := Print(x, 1, u);
    ReComp(GeneratorExp(x, gs));
    ReadHead(GeneratorExp(x, gs), Cons(RPar, k));
    HeadPrint(x, 1, u);
    NotAssign(u);
    HeadNotClosed(t);
    NotStar(t);
    GeneratorArgument(t, Reparse(x), u, ReGens(gs), k);
  }

  lemma NotAssign(u: Toks)
    requires CompForStart(u)
    ensures !At0(u, Assign)
  {
  }

  lemma NotStar(t: Toks)
    requires HeadOk(1, t)
    ensures !At0(t, Star) && !At0(t, DStar)
  {
  }

  lemma GeneratorArgument(t: Toks, x: Option<Expr>, u: Toks, gs: Option<seq<Comprehension>>, k: Toks)
    requires ParseExpr(t) == Of(x, u) && CompForStart(u) && ParseGens(u) == Of(gs, Cons(RPar, k))
    requires !NameThen(t, Assign) && !At0(t, RPar) && !At0(t, Star) && !At0(t, DStar)
    ensures ParseCallArgs(t) ==
      match Both(x, gs) case None => Err case Some(p) => Ok(CallArgs([GeneratorExp(p.0, p.1)], []), k)
  {
    hide ParseExpr, ParseGens, CompForStart;
    assert ParseCallArgs(t) == CallTail(true, t);
  }

  // ----- subscripts -----

  lemma SubsEnd(k: Toks)
    ensures SubscriptTail(Cons(Comma, Cons(RBrk, k))) == Ok([], Cons(RBrk, k))
  {
  }

  lemma SubsMore(t: Toks, x: Option<Expr>, u: Toks)
    requires !At0(t, RBrk) && ParseSubscriptItem(t) == Of(x, u)
    ensures SubscriptTail(Cons(Comma, t)) ==
      match x
      case None => Err
      case Some(v) => match SubscriptTail(u) case Err => Err case Ok(es, r) => Ok([v] + es, r)
  {
    hide ParseSubscriptItem;
  }

  lemma {:induction false} SubsComma(es: seq<Expr>, k: Toks)
    requires WfSubs(es)
    ensures SubscriptTail(PrintTail(Comma, es, 1, Cons(Comma, Cons(RBrk, k)))) == Of(ReAll(es), Cons(RBrk, k))
    decreases es
  {
    hide Print, Reparse, ReAll, ParseSubscriptItem, SubscriptTail, WfSub;
    var end := Cons(Comma, Cons(RBrk, k));
    if es == [] {
      ReAllEmpty();
      SubsEnd(k);
    } else {
      var rest := PrintTail(Comma, es[1..], 1, end);
      AfterElement(es[1..], end);
      ReadSub(es[0], rest);
      SubsComma(es[1..], k);
      ReAllCons(es);
      SubsMore(Print(es[0], 1, rest), Reparse(es[0]), rest);
    }
  }

  /** `a[i, j,]` and `a[i,]`: with a comma at its end the index is a tuple, slices among its items too. */
  lemma SubscriptComma(es: seq<Expr>, k: Toks)
    requires es != [] && WfSubs(es)
    ensures ParseSubscriptBody(PrintJoin(Comma, es, 1, Cons(Comma, Cons(RBrk, k)))) ==
            Of(Reparse(Tuple(es)), Cons(RBrk, k))
  {
    hide Print, Reparse, ReAll, ParseSubscriptItem, SubscriptTail, WfSub;
    var end := Cons(Comma, Cons(RBrk, k));
    var rest := PrintTail(Comma, es[1..], 1, end);
    TailJoin(Comma, es, 1, end);
    AfterElement(es[1..], end);
    ReadSub(es[0], rest);
    SubsComma(es[1..], k);
    ReTuple(es);
    ReAllCons(es);
    SubscriptList(Print(es[0], 1, rest), Reparse(es[0]), rest, ReAll(es[1..]), Cons(RBrk, k));
  }

  lemma SubscriptList(t: Toks, x: Option<Expr>, u: Toks, es: Option<seq<Expr>>, k: Toks)
    requires ParseSubscriptItem(t) == Of(x, u) && At0(u, Comma) && SubscriptTail(u) == Of(es, k)
    ensures ParseSubscriptBody(t) == match Both(x, es) case None => Err case Some(p) => Ok(Tuple([p.0] + p.1), k)
  {
    hide ParseSubscriptItem, SubscriptTail;
  }

  /** `a[*x]`: a starred index is the tuple of one. */
  lemma StarredIndex(x: Expr, k: Toks)
    requires Wf(x)
    ensures ParseSubscriptBody(Print(Starred(x), 1, Cons(RBrk, k))) ==
            match Reparse(x) case None => Err case Some(v) => Ok(Tuple([Starred(v)]), Cons(RBrk, k))
  {
    hide Print, Reparse, ParseSubscriptItem, SubscriptTail;
    ReadSub(Starred(x), Cons(RBrk, k));
    ReStarred(x);
  }

  /** `a[i:j:]`: a second colon with nothing after it is no step. */
  lemma EmptyStep(lo: Option<Expr>, up: Option<Expr>, k: Toks)
    requires WfOpt(lo) && WfOpt(up) && SubEnd(k)
    ensures ParseSubscriptItem(PrintOpt(lo, Cons(Colon, PrintOpt(up, Cons(Colon, k))))) ==
            Of(Reparse(Slice(lo, up, None)), k)
  {
    hide Print, PrintOpt, Reparse, ReOpt, ParseExpr, ParseSlice, ParseSubscriptItem, WfOpt, HeadOk, Fits;
    var t := Cons(Colon, PrintOpt(up, Cons(Colon, k)));
    ReSliceExpr(lo, up, None);
    ReOptNone();
    ReadPart(up, Cons(Colon, k));
    if lo.None? {
      OptNone(t);
      SliceStart(t);
      SliceRest(None, PrintOpt(up, Cons(Colon, k)), ReOpt(up), k);
    } else {
      WfSome(lo);
      OptSome(lo.value, t);
      ReOptSome(lo.value);
      LowerRead(lo.value, t);
      SliceRest(Reparse(lo.value), PrintOpt(up, Cons(Colon, k)), ReOpt(up), k);
    }
  }

  lemma LowerRead(x: Expr, t: Toks)
    requires Wf(x) && At0(t, Colon)
    ensures ParseSubscriptItem(Print(x, 1, t)) == if Reparse(x).None? then Err else ParseSlice(Reparse(x), t)
  {
    hide Print, Reparse, ParseExpr, ParseStarOrExpr, ParseSlice, ParseSubscriptItem, Wf, HeadOk, Fits;
    ColonFits(t.tl);
    ReadExpr(x, 1, t);
    NotStar(Print(x, 1, t));
    HeadIsNot(1, Print(x, 1, t));
    SliceAfter(Print(x, 1, t), Reparse(x), t);
  }

  lemma WfSome(o: Option<Expr>)
    requires WfOpt(o) && o.Some?
    ensures Wf(o.value)
  {
  }

  lemma SliceStart(t: Toks)
    requires At0(t, Colon)
    ensures ParseSubscriptItem(t) == ParseSlice(None, t)
  {
    hide ParseSlice;
  }

  lemma SliceAfter(t: Toks, x: Option<Expr>, u: Toks)
    requires !At0(t, Star) && !At0(t, Colon) && ParseExpr(t) == Of(x, u) && At0(u, Colon)
    ensures ParseSubscriptItem(t) == if x.None? then Err else ParseSlice(x, u)
  {
    hide ParseExpr, ParseSlice;
  }

  lemma SliceRest(lo: Option<Expr>, t: Toks, up: Option<Option<Expr>>, k: Toks)
    requires ParseSlicePart(t) == Of(up, Cons(Colon, k)) && SubEnd(k)
    ensures ParseSlice(lo, Cons(Colon, t)) == match up case None => Err case Some(u) => Ok(Slice(lo, u, None), k)
  {
    hide ParseSlicePart, ParseExpr;
  }

  // ----- strings -----

  datatype Literal = Literal(kind: StrKind, val: string)

  function Literals(ss: seq<Literal>, k: Toks): Toks {
    if ss == [] then k else Cons(StrLit(ss[0].kind, ss[0].val), Literals(ss[1..], k))
  }

  function Concat(ss: seq<Literal>): string {
    if ss == [] then "" else ss[0].val + Concat(ss[1..])
  }

  /** All of them bytes, or none, as the kind is. */
  predicate Mixable(kind: StrKind, ss: seq<Literal>) {
    forall i | 0 <= i < |ss| :: ss[i].kind == Bytes <==> kind == Bytes
  }

  lemma MixableFirst(kind: StrKind, ss: seq<Literal>)
    requires ss != []
    ensures Mixable(kind, ss) <==> (ss[0].kind == Bytes <==> kind == Bytes) && Mixable(kind, ss[1..])
    ensures Mixable(ss[0].kind, ss) <==> Mixable(ss[0].kind, ss[1..])
  {
    assert forall i | 0 < i < |ss| :: ss[i] == ss[1..][i - 1];
  }

  lemma {:induction false} LiteralsTail(kind: StrKind, v: string, ss: seq<Literal>, k: Toks)
    requires !(k.Cons? && k.hd.StrLit?)
    ensures StringTail(kind, v, Literals(ss, k)) ==
            if Mixable(kind, ss) then Ok(Constant(CStr(kind, v + Concat(ss))), k) else Err
    decreases ss
  {
    hide Mixable;
    if ss == [] {
      NoneMixed(kind);
      assert v + "" == v;
    } else {
      MixableFirst(kind, ss);
      LiteralsTail(kind, v + ss[0].val, ss[1..], k);
      assert (v + ss[0].val) + Concat(ss[1..]) == v + Concat(ss);
    }
  }

  lemma NoneMixed(kind: StrKind)
    ensures Mixable(kind, [])
  {
  }

  /** Strings side by side are one string of the kind of the first, unless bytes stand beside others. */
  lemma StringsJoined(ss: seq<Literal>, k: Toks)
    requires ss != [] && !(k.Cons? && k.hd.StrLit?)
    ensures ParseAtom(Literals(ss, k)) ==
            if Mixable(ss[0].kind, ss) then Ok(Constant(CStr(ss[0].kind, Concat(ss))), k) else Err
  {
    hide Mixable, StringTail;
    LiteralsTail(ss[0].kind, ss[0].val, ss[1..], k);
    MixableFirst(ss[0].kind, ss);
    var t := Literals(ss, k);
    assert ParseAtom(t) == StringTail(ss[0].kind, ss[0].val, t.tl);
  }

  // ----- lambda parameters and targets -----

  /** `lambda x, *y,: z`. */
  lemma LambdaComma(ps: Arguments, b: Expr, k: Toks)
    requires WfLambdaArgs(ps) && HasParams(ps) && Wf(b) && Fits(1, k)
    ensures ParseExpr(Cons(Nm(KwLambda), PrintArguments(ps, Cons(Comma, Cons(Colon, Print(b, 1, k)))))) ==
            Of(Reparse(Lambda(ps, b)), k)
  {
    hide Print, Reparse, ReArgs, ReadPos, PrintPositional, LambdaArgs, ParseTernary, ParseExpr, WfLambdaArgs, Wf, Fits,
      HasParams;
    var k1 := Cons(Comma, Cons(Colon, Print(b, 1, k)));
    ReadPositional(ps, 0, NO_ARGS, k1);
    ReadPosIsReArgs(ps);
    ReadExpr(b, 1, k);
    ReLambda(ps, b);
    LambdaGlue(PrintPositional(ps, 0, k1), ReArgs(ps), Print(b, 1, k), Reparse(b), k);
  }

  lemma TargetCommaEnd(k: Toks)
    requires IsKw(k, KwIn)
    ensures TargetListTail(Cons(Comma, k)) == Ok([], k)
  {
  }

  lemma {:induction false} TargetTailComma(es: seq<Expr>, k: Toks)
    requires WfTargets(es) && IsKw(k, KwIn)
    ensures RoundTrip.Comes(TargetListTail(PrintTail(Comma, es, 1, Cons(Comma, k))), ReTargets(es), k)
    decreases es
  {
    hide Print, ReTargets, ReTargetAtom, ParseTargetAtom, TargetListTail, Starter, WfTargetAtom;
    ReTargetsCons(es);
    if es == [] {
      TargetCommaEnd(k);
    } else {
      var rest := PrintTail(Comma, es[1..], 1, Cons(Comma, k));
      AfterElement(es[1..], Cons(Comma, k));
      TargetTailComma(es[1..], k);
      ReadTargetAtom(es[0], 1, rest);
      TailGoesOn(Print(es[0], 1, rest), ReTargetAtom(es[0]), rest, ReTargets(es[1..]), k);
    }
  }

  /** `for x, in y`: targets with a comma at their end are a tuple, a single one too. */
  lemma TargetComma(es: seq<Expr>, k: Toks)
    requires es != [] && WfTargets(es) && IsKw(k, KwIn)
    ensures RoundTrip.Comes(ParseTargetList(PrintJoin(Comma, es, 1, Cons(Comma, k))),
              match ReTargets(es) case None => None case Some(xs) => Some(Tuple(xs)), k)
  {
    hide Print, ReTargets, ReTargetAtom, ParseTargetAtom, ParseTargetList, TargetListTail, WfTargetAtom, TargetStart;
    var rest := PrintTail(Comma, es[1..], 1, Cons(Comma, k));
    TailJoin(Comma, es, 1, Cons(Comma, k));
    AfterElement(es[1..], Cons(Comma, k));
    ReTargetsCons(es);
    TargetTailComma(es[1..], k);
    ReadTargetAtom(es[0], 1, rest);
    TargetsGlue(Print(es[0], 1, rest), ReTargetAtom(es[0]), rest, ReTargets(es[1..]), k);
  }

  lemma TargetsGlue(t: Toks, x: Option<Expr>, u: Toks, xs: Option<seq<Expr>>, k: Toks)
    requires RoundTrip.Comes(ParseTargetAtom(t), x, u) && At0(u, Comma) && RoundTrip.Comes(TargetListTail(u), xs, k)
    ensures RoundTrip.Comes(ParseTargetList(t),
              match Both(x, xs) case None => None case Some(p) => Some(Tuple([p.0] + p.1)), k)
  {
    hide ParseTargetAtom;
    var r := ParseTargetAtom(t);
    if r.Ok? {
      TailStops(r.rest);
    }
    hide TargetListTail;
  }

  // ----- yields -----

  /** A yield without a value, before a comma or where a list may end. */
  lemma YieldAlone(k: Toks)
    requires (ListStop(k) && !(k.Cons? && k.hd.AugAssign?)) || At0(k, Comma)
    ensures ParseExpr(Cons(Nm(KwYield), k)) == Ok(Yield(None), k)
  {
    assert ParseExpr(Cons(Nm(KwYield), k)) == ParseYield(Cons(Nm(KwYield), k));
  }
}
