/** What the v2 expression parser consumes: what it leaves holds nothing that it was not given, and
    each function consumes balanced text, so that the first closing bracket that is left over stays
    the same one. */
module Consumption {
  import opened Tokens
  import opened Ast
  import opened Grammar
  import Layout

  /** Text on which the two front ends do not part: no await, no word of the language before `:=` or `=`,
      no starred key of a dictionary, and no word that has a meaning of its own for the target of a `for`. */
  predicate Shared(t: Toks) {
    t.Cons? ==> !Apart(t.hd, t.tl) && Shared(t.tl)
  }

  predicate Apart(x: Tok, t: Toks) {
    || x == Nm(KwAwait)
    || (x.Nm? && !x.w.Ident? && (At0(t, Walrus) || At0(t, Assign)))
    || (x == LBrc && At0(t, Star) && StarredKey(t))
    || (x == Nm(KwFor) && WordTargets(t))
  }

  /** `{*x: …`. */
  predicate StarredKey(t: Toks) {
    match ParseStarOrExpr(t) case Err => false case Ok(_, k) => At0(k, Colon)
  }

  /** `for None in …`. */
  predicate WordTargets(t: Toks) {
    match ParseTargetList(t) case Err => false case Ok(e, k) => IsKw(k, KwIn) && !PlainTarget(e)
  }

  /** No target is a word that begins or is an expression, nor starred twice. */
  predicate PlainTarget(e: Expr) {
    match e
    case Name(x) => !Loaded(x)
    case Attribute(v, _) => PlainTarget(v)
    case Subscript(v, _) => PlainTarget(v)
    case Starred(v) => !v.Starred? && PlainTarget(v)
    case Tuple(es) => PlainTargets(es)
    case ListExpr(es) => PlainTargets(es)
    case _ => true
  }

  predicate PlainTargets(es: seq<Expr>) {
    es == [] || (PlainTarget(es[0]) && PlainTargets(es[1..]))
  }

  predicate Loaded(x: string) {
    x == "not" || x == "lambda" || x == "yield" || x == "None" || x == "True" || x == "False"
  }

  /** What follows the first closing bracket of t that nothing in t opens. */
  function Exit(t: Toks): (r: Toks)
    ensures Len(r) <= Len(t)
    decreases Len(t)
  {
    if t.End? then End
    else if Layout.Closes(t.hd) then t.tl
    else if Layout.Opens(t.hd) then Exit(Exit(t.tl))
    else Exit(t.tl)
  }

  /** r is what is left of t after something balanced. */
  predicate Eats(t: Toks, r: Toks) {
    (Shared(t) ==> Shared(r)) && Exit(r) == Exit(t)
  }

  /** r is what is left of t after something balanced and a closing bracket. */
  predicate Leaves(t: Toks, r: Toks) {
    (Shared(t) ==> Shared(r)) && r == Exit(t)
  }

  /** What reading r from t leaves. */
  predicate Eaten<T>(t: Toks, r: Res<T>) {
    match r case Err => true case Ok(_, k) => Eats(t, k)
  }

  predicate Left<T>(t: Toks, r: Res<T>) {
    match r case Err => true case Ok(_, k) => Leaves(t, k)
  }

  lemma Two(t: Toks)
    requires t.Cons?
    ensures Shared(t) ==> Shared(Rest(t))
    ensures Rest(t).Cons? && Shared(t) ==> Shared(Rest(Rest(t)))
    ensures Rest(t).Cons? ==> Len(t) == 2 + Len(Rest(Rest(t)))
    ensures Rest(t).Cons? && IsNeutral(t.hd) && IsNeutral(Rest(t).hd) ==> Exit(t) == Exit(Rest(Rest(t)))
    ensures Rest(t).Cons? && IsNeutral(t.hd) && Layout.Closes(Rest(t).hd) ==> Exit(t) == Rest(Rest(t))
  {
    hide Apart;
    assert Len(t) == 1 + Len(t.tl);
    if t.tl.Cons? {
      assert Len(t.tl) == 1 + Len(t.tl.tl);
      assert IsNeutral(t.tl.hd) ==> Exit(t.tl) == Exit(t.tl.tl);
      assert Layout.Closes(t.tl.hd) ==> Exit(t.tl) == t.tl.tl;
    }
  }

  predicate IsNeutral(x: Tok) {
    !Layout.Opens(x) && !Layout.Closes(x)
  }

  /** One token. */
  lemma Past(t: Toks)
    requires t.Cons?
    ensures IsNeutral(t.hd) ==> Eats(t, Rest(t))
    ensures Layout.Closes(t.hd) ==> Leaves(t, Rest(t))
  {
  }

  /** An opening bracket, what it encloses, and its closing bracket. */
  lemma Enclosed(t: Toks, r: Toks)
    requires t.Cons? && Layout.Opens(t.hd) && Leaves(Rest(t), r)
    ensures Eats(t, r)
  {
  }

  /** What leads a clause of a comprehension. */
  lemma PastFor(t: Toks)
    requires CompForStart(t)
    ensures Eats(t, if IsKw(t, KwAsync) then Rest(Rest(t)) else Rest(t))
    ensures Len(if IsKw(t, KwAsync) then Rest(Rest(t)) else Rest(t)) < Len(t)
  {
    hide Apart;
    Two(t);
  }

  lemma EatCmp(t: Toks)
    ensures CmpAt(t).Some? ==> Eats(t, CmpAt(t).value.1)
  {
    hide Exit, Shared, Apart;
    if t.Cons? {
      Past(t);
      Two(t);
    }
  }

  lemma {:induction false} EatExpr(t: Toks)
    ensures Eaten(t, ParseExpr(t))
    decreases Len(t), 30
  {
    hide ParseLambda, ParseYield, ParseTernary, Exit, Shared, Apart;
    if IsKw(t, KwLambda) {
      EatLambda(t);
    } else if IsKw(t, KwYield) {
      EatYield(t);
    } else if AtPlainName(t) && At0(t.tl, Walrus) {
      Two(t);
      EatExpr(t.tl.tl);
    } else {
      EatTernary(t);
    }
  }

  lemma {:induction false} EatYield(t: Toks)
    requires IsKw(t, KwYield)
    ensures Eaten(t, ParseYield(t))
    decreases Len(t), 29
  {
    hide ParseExpr, ParseTestlist, Apart;
    if IsKw(t.tl, KwFrom) {
      Two(t);
      EatExpr(t.tl.tl);
    } else {
      EatTestlist(t.tl);
    }
  }

  lemma {:induction false} EatTestlist(t: Toks)
    ensures Eaten(t, ParseTestlist(t))
    decreases Len(t), 32
  {
    hide ParseStarOrExpr, TestlistTail, Apart;
    EatStarOrExpr(t);
    var r := ParseStarOrExpr(t);
    if r.Ok? {
      EatTestlistTail(r.rest);
    }
  }

  lemma {:induction false} EatTestlistTail(t: Toks)
    ensures Eaten(t, TestlistTail(t))
    decreases Len(t), 33
  {
    hide ParseStarOrExpr, Apart;
    if At0(t, Comma) {
      EatStarOrExpr(t.tl);
      var r := ParseStarOrExpr(t.tl);
      if r.Ok? {
        EatTestlistTail(r.rest);
      }
    }
  }

  lemma {:induction false} EatStarOrExpr(t: Toks)
    ensures Eaten(t, ParseStarOrExpr(t))
    decreases Len(t), 31
  {
    hide ParseExpr, Apart;
    EatExpr(if At0(t, Star) then t.tl else t);
  }

  lemma {:induction false} EatTernary(t: Toks)
    ensures Eaten(t, ParseTernary(t))
    decreases Len(t), 28
  {
    hide ParseOr, ParseExpr, Apart;
    EatOr(t);
    var r := ParseOr(t);
    if r.Ok? && IsKw(r.rest, KwIf) {
      EatOr(r.rest.tl);
      var s := ParseOr(r.rest.tl);
      if s.Ok? && IsKw(s.rest, KwElse) {
        EatExpr(s.rest.tl);
      }
    }
  }

  lemma {:induction false} EatOr(t: Toks)
    ensures Eaten(t, ParseOr(t))
    decreases Len(t), 27
  {
    hide ParseAnd, OrTail, Apart;
    EatAnd(t);
    var r := ParseAnd(t);
    if r.Ok? {
      EatOrTail(r.rest);
    }
  }

  lemma {:induction false} EatOrTail(t: Toks)
    ensures Eaten(t, OrTail(t))
    decreases Len(t), 26
  {
    hide ParseAnd, Apart;
    if IsKw(t, KwOr) {
      EatAnd(t.tl);
      var r := ParseAnd(t.tl);
      if r.Ok? {
        EatOrTail(r.rest);
      }
    }
  }

  lemma {:induction false} EatAnd(t: Toks)
    ensures Eaten(t, ParseAnd(t))
    decreases Len(t), 25
  {
    hide ParseNot, AndTail, Apart;
    EatNot(t);
    var r := ParseNot(t);
    if r.Ok? {
      EatAndTail(r.rest);
    }
  }

  lemma {:induction false} EatAndTail(t: Toks)
    ensures Eaten(t, AndTail(t))
    decreases Len(t), 24
  {
    hide ParseNot, Apart;
    if IsKw(t, KwAnd) {
      EatNot(t.tl);
      var r := ParseNot(t.tl);
      if r.Ok? {
        EatAndTail(r.rest);
      }
    }
  }

  lemma {:induction false} EatNot(t: Toks)
    ensures Eaten(t, ParseNot(t))
    decreases Len(t), 23
  {
    hide ParseCompare, Apart;
    if IsKw(t, KwNot) {
      EatNot(t.tl);
    } else {
      EatCompare(t);
    }
  }

  lemma {:induction false} EatCompare(t: Toks)
    ensures Eaten(t, ParseCompare(t))
    decreases Len(t), 22
  {
    hide ParseBin, CompareTail, Apart;
    EatBin(L_BIT_OR, t);
    var r := ParseBin(L_BIT_OR, t);
    if r.Ok? {
      EatCompareTail(r.rest);
    }
  }

  lemma {:induction false} EatCompareTail(t: Toks)
    ensures Eaten(t, CompareTail(t))
    decreases Len(t), 21
  {
    hide ParseBin, Apart;
    EatCmp(t);
    if CmpAt(t).Some? {
      EatBin(L_BIT_OR, CmpAt(t).value.1);
      var r := ParseBin(L_BIT_OR, CmpAt(t).value.1);
      if r.Ok? {
        EatCompareTail(r.rest);
      }
    }
  }

  lemma {:induction false} EatBin(L: nat, t: Toks)
    requires 7 <= L <= 13
    ensures Eaten(t, ParseBin(L, t))
    decreases Len(t), 20 - L
  {
    hide ParseUnary, BinTail, Apart;
    if L == 13 {
      EatUnary(t);
    } else {
      EatBin(L + 1, t);
      var r := ParseBin(L + 1, t);
      if r.Ok? {
        EatBinTail(L, r.v, r.rest);
      }
    }
  }

  lemma {:induction false} EatBinTail(L: nat, left: Expr, t: Toks)
    requires 7 <= L <= 12
    ensures Eaten(t, BinTail(L, left, t))
    decreases Len(t), 0
  {
    hide ParseBin, Apart;
    if t.Cons? && OpAt(L, t.hd).Some? {
      EatBin(L + 1, t.tl);
      var r := ParseBin(L + 1, t.tl);
      if r.Ok? {
        EatBinTail(L, BinOp(OpAt(L, t.hd).value, left, r.v), r.rest);
      }
    }
  }

  lemma {:induction false} EatUnary(t: Toks)
    ensures Eaten(t, ParseUnary(t))
    decreases Len(t), 6
  {
    hide ParsePower, Apart;
    if t.Cons? && (UnaryAt(t.hd).Some? || IsKw(t, KwAwait)) {
      EatUnary(t.tl);
    } else {
      EatPower(t);
    }
  }

  lemma {:induction false} EatPower(t: Toks)
    ensures Eaten(t, ParsePower(t))
    decreases Len(t), 5
  {
    hide ParseTrailer, ParseUnary, Apart;
    EatTrailer(t);
    var r := ParseTrailer(t);
    if r.Ok? && At0(r.rest, DStar) {
      EatUnary(r.rest.tl);
    }
  }

  lemma {:induction false} EatTrailer(t: Toks)
    ensures Eaten(t, ParseTrailer(t))
    decreases Len(t), 4
  {
    hide ParseAtom, TrailerTail, Apart;
    EatAtom(t);
    var r := ParseAtom(t);
    if r.Ok? {
      EatTrailerTail(r.v, r.rest);
    }
  }

  lemma {:induction false} EatTrailerTail(e: Expr, t: Toks)
    ensures Eaten(t, TrailerTail(e, t))
    decreases Len(t), 3
  {
    hide ParseAttrName, ParseCallArgs, ParseSubscriptBody, Exit, Shared, Apart;
    if At0(t, Dot) {
      Past(t);
      EatAttrName(t.tl);
      var r := ParseAttrName(t.tl);
      if r.Ok? {
        EatTrailerTail(Attribute(e, r.v), r.rest);
      }
    } else if At0(t, LPar) {
      EatCallArgs(t.tl);
      var r := ParseCallArgs(t.tl);
      if r.Ok? {
        Enclosed(t, r.rest);
        EatTrailerTail(Call(e, r.v.args, r.v.keywords), r.rest);
      }
    } else if At0(t, LBrk) {
      EatSubscriptBody(t.tl);
      var r := ParseSubscriptBody(t.tl);
      if r.Ok? && At0(r.rest, RBrk) {
        Past(r.rest);
        Enclosed(t, r.rest.tl);
        EatTrailerTail(Subscript(e, r.v), r.rest.tl);
      }
    }
  }

  lemma {:induction false} EatAttrName(t: Toks)
    ensures Eaten(t, ParseAttrName(t))
  {
  }

  lemma {:induction false} EatSubscriptBody(t: Toks)
    ensures Eaten(t, ParseSubscriptBody(t))
    decreases Len(t), 42
  {
    hide ParseSubscriptItem, SubscriptTail, Apart;
    EatSubscriptItem(t);
    var r := ParseSubscriptItem(t);
    if r.Ok? {
      EatSubscriptTail(r.rest);
    }
  }

  lemma {:induction false} EatSubscriptTail(t: Toks)
    ensures Eaten(t, SubscriptTail(t))
    decreases Len(t), 43
  {
    hide ParseSubscriptItem, Apart;
    if At0(t, Comma) {
      EatSubscriptItem(t.tl);
      var r := ParseSubscriptItem(t.tl);
      if r.Ok? {
        EatSubscriptTail(r.rest);
      }
    }
  }

  lemma {:induction false} EatSubscriptItem(t: Toks)
    ensures Eaten(t, ParseSubscriptItem(t))
    decreases Len(t), 41
  {
    hide ParseExpr, ParseSlice, Apart;
    if At0(t, Star) {
      EatExpr(t.tl);
    } else if At0(t, Colon) {
      EatSlice(None, t);
    } else {
      EatExpr(t);
      var r := ParseExpr(t);
      if r.Ok? && At0(r.rest, Colon) {
        EatSlice(Some(r.v), r.rest);
      }
    }
  }

  lemma {:induction false} EatSlice(lower: Option<Expr>, t: Toks)
    requires At0(t, Colon)
    ensures Eaten(t, ParseSlice(lower, t))
    decreases Len(t), 40
  {
    hide ParseSlicePart, ParseStep, Apart;
    EatSlicePart(t.tl);
    var r := ParseSlicePart(t.tl);
    if r.Ok? && At0(r.rest, Colon) {
      EatStep(r.rest.tl);
    }
  }

  lemma {:induction false} EatSlicePart(t: Toks)
    ensures Eaten(t, ParseSlicePart(t))
    decreases Len(t), 39
  {
    hide ParseExpr, Apart;
    EatExpr(t);
  }

  lemma {:induction false} EatStep(t: Toks)
    ensures Eaten(t, ParseStep(t))
    decreases Len(t), 39
  {
    hide ParseExpr, Apart;
    EatExpr(t);
  }

  lemma {:induction false} EatCallArgs(t: Toks)
    ensures Left(t, ParseCallArgs(t))
    decreases Len(t), 42
  {
    hide CallTail, Apart;
    EatCallTail(true, t);
  }

  lemma {:induction false} EatCallTail(empty: bool, t: Toks)
    ensures Left(t, CallTail(empty, t))
    decreases Len(t), 41
  {
    hide ParseExpr, CallNext, ParseGens, Exit, Shared, Apart;
    if At0(t, DStar) || At0(t, Star) {
      Past(t);
      EatExpr(t.tl);
      var r := ParseExpr(t.tl);
      if r.Ok? {
        EatCallNext(if At0(t, Star) then CallArgs([Starred(r.v)], []) else CallArgs([], [Keyword(None, r.v)]), r.rest);
      }
    } else if AtPlainName(t) && At0(t.tl, Assign) {
      Two(t);
      EatExpr(t.tl.tl);
      var r := ParseExpr(t.tl.tl);
      if r.Ok? {
        EatCallNext(CallArgs([], [Keyword(Some(t.hd.w.id), r.v)]), r.rest);
      }
    } else {
      EatExpr(t);
      var r := ParseExpr(t);
      if r.Ok? {
        EatCallNext(CallArgs([r.v], []), r.rest);
        EatGens(r.rest);
        if ParseGens(r.rest).Ok? && At0(ParseGens(r.rest).rest, RPar) {
          Past(ParseGens(r.rest).rest);
        }
      }
    }
  }

  lemma {:induction false} EatCallNext(a: CallArgs, t: Toks)
    ensures Left(t, CallNext(a, t))
    decreases Len(t), 40
  {
    hide CallTail, Apart;
    if t.Cons? {
      Two(t);
    }
    if At0(t, Comma) && !At0(t.tl, RPar) {
      EatCallTail(false, t.tl);
    }
  }

  lemma {:induction false} EatAtom(t: Toks)
    ensures Eaten(t, ParseAtom(t))
    decreases Len(t), 2
  {
    hide StringTail, ParseParenAtom, ParseListAtom, ParseBraceAtom, Apart;
    if t.Cons? {
      if t.hd.StrLit? {
        EatStringTail(t.hd.kind, t.hd.val, t.tl);
      } else if t.hd == LPar {
        EatParenAtom(t.tl);
      } else if t.hd == LBrk {
        EatListAtom(t.tl);
      } else if t.hd == LBrc {
        EatBraceAtom(t.tl);
      }
    }
  }

  lemma {:induction false} EatStringTail(kind: StrKind, v: string, t: Toks)
    ensures Eaten(t, StringTail(kind, v, t))
    decreases Len(t), 0
  {
    hide Apart;
    if t.Cons? && t.hd.StrLit? {
      EatStringTail(kind, v + t.hd.val, t.tl);
    }
  }

  lemma {:induction false} EatParenAtom(t: Toks)
    ensures Left(t, ParseParenAtom(t))
    decreases Len(t), 35
  {
    hide ParseStarOrExpr, ParseGens, ParenTail, CompForStart, Exit, Shared, Apart;
    if At0(t, RPar) {
      Past(t);
    }
    EatStarOrExpr(t);
    var r := ParseStarOrExpr(t);
    if r.Ok? {
      EatGens(r.rest);
      PastParen(r.rest);
      if ParseGens(r.rest).Ok? {
        PastParen(ParseGens(r.rest).rest);
      }
      if At0(r.rest, Comma) {
        Past(r.rest);
        EatParenTail(r.rest.tl);
        if ParenTail(r.rest.tl).Ok? {
          PastParen(ParenTail(r.rest.tl).rest);
        }
      }
    }
  }

  lemma PastParen(t: Toks)
    ensures At0(t, RPar) ==> Leaves(t, Rest(t))
  {
  }

  lemma {:induction false} EatParenTail(t: Toks)
    ensures Eaten(t, ParenTail(t))
    decreases Len(t), 35
  {
    hide ParseStarOrExpr, Apart;
    EatStarOrExpr(t);
    var r := ParseStarOrExpr(t);
    if r.Ok? && At0(r.rest, Comma) {
      EatParenTail(r.rest.tl);
    }
  }

  lemma {:induction false} EatEltsTail(close: Tok, t: Toks)
    ensures Eaten(t, EltsTail(close, t))
    decreases Len(t), 35
  {
    hide ParseStarOrExpr, Apart, Exit, Shared;
    if At0(t, Comma) {
      Past(t);
      EatStarOrExpr(t.tl);
      var r := ParseStarOrExpr(t.tl);
      if r.Ok? {
        EatEltsTail(close, r.rest);
      }
    }
  }

  lemma {:induction false} EatListAtom(t: Toks)
    ensures Left(t, ParseListAtom(t))
    decreases Len(t), 36
  {
    hide ParseStarOrExpr, ParseGens, EltsTail, Apart;
    EatStarOrExpr(t);
    var r := ParseStarOrExpr(t);
    if r.Ok? {
      EatGens(r.rest);
      EatEltsTail(RBrk, r.rest);
    }
  }

  lemma {:induction false} EatBraceAtom(t: Toks)
    ensures Left(t, ParseBraceAtom(t))
    decreases Len(t), 37
  {
    hide ParseExpr, DictTail, ParseStarOrExpr, ParseDictRest, ParseGens, EltsTail, Exit, Shared, Apart;
    if t.Cons? {
      Past(t);
    }
    if At0(t, DStar) {
      EatExpr(t.tl);
      var r := ParseExpr(t.tl);
      if r.Ok? {
        EatDictTail(r.rest);
        var s := DictTail(r.rest);
        if s.Ok? && s.rest.Cons? {
          Past(s.rest);
        }
      }
    } else if !At0(t, RBrc) {
      EatStarOrExpr(t);
      var r := ParseStarOrExpr(t);
      if r.Ok? {
        if At0(r.rest, Colon) {
          Past(r.rest);
          EatDictRest(r.v, r.rest.tl);
        } else if CompForStart(r.rest) {
          EatGens(r.rest);
          var s := ParseGens(r.rest);
          if s.Ok? && s.rest.Cons? {
            Past(s.rest);
          }
        } else {
          EatEltsTail(RBrc, r.rest);
          var s := EltsTail(RBrc, r.rest);
          if s.Ok? && s.rest.Cons? {
            Past(s.rest);
          }
        }
      }
    }
  }

  lemma {:induction false} EatDictRest(key: Expr, t: Toks)
    ensures Left(t, ParseDictRest(key, t))
    decreases Len(t), 36
  {
    hide ParseExpr, ParseGens, DictTail, Apart;
    EatExpr(t);
    var r := ParseExpr(t);
    if r.Ok? {
      EatGens(r.rest);
      EatDictTail(r.rest);
    }
  }

  lemma {:induction false} EatDictTail(t: Toks)
    ensures Eaten(t, DictTail(t))
    decreases Len(t), 35
  {
    hide ParseDictItem, Apart;
    if At0(t, Comma) {
      EatDictItem(t.tl);
      var r := ParseDictItem(t.tl);
      if r.Ok? {
        EatDictTail(r.rest);
      }
    }
  }

  lemma {:induction false} EatDictItem(t: Toks)
    ensures Eaten(t, ParseDictItem(t))
    decreases Len(t), 34
  {
    hide ParseExpr, Apart;
    EatExpr(if At0(t, DStar) then t.tl else t);
    var r := ParseExpr(t);
    if r.Ok? && At0(r.rest, Colon) {
      EatExpr(r.rest.tl);
    }
  }

  lemma {:induction false} EatGens(t: Toks)
    ensures Eaten(t, ParseGens(t))
    decreases Len(t), 41
  {
    hide ParseGen, Apart;
    if CompForStart(t) {
      EatGen(t);
      var r := ParseGen(t);
      if r.Ok? {
        EatGens(r.rest);
      }
    }
  }

  lemma {:induction false} EatGen(t: Toks)
    requires CompForStart(t)
    ensures Eaten(t, ParseGen(t))
    decreases Len(t), 40
  {
    hide ParseTargetList, ParseOr, IfsTail, Exit, Shared, Apart;
    PastFor(t);
    var u := if IsKw(t, KwAsync) then t.tl.tl else t.tl;
    EatTargetList(u);
    var r := ParseTargetList(u);
    if r.Ok? && IsKw(r.rest, KwIn) {
      Past(r.rest);
      EatOr(r.rest.tl);
      var s := ParseOr(r.rest.tl);
      if s.Ok? {
        EatIfsTail(s.rest);
      }
    }
  }

  lemma {:induction false} EatIfsTail(t: Toks)
    ensures Eaten(t, IfsTail(t))
    decreases Len(t), 39
  {
    hide ParseOr, Apart;
    if IsKw(t, KwIf) {
      EatOr(t.tl);
      var r := ParseOr(t.tl);
      if r.Ok? {
        EatIfsTail(r.rest);
      }
    }
  }

  lemma {:induction false} EatTargetList(t: Toks)
    ensures Eaten(t, ParseTargetList(t))
    decreases Len(t), 39
  {
    hide ParseTargetAtom, TargetListTail, Apart;
    EatTargetAtom(t);
    var r := ParseTargetAtom(t);
    if r.Ok? {
      EatTargetListTail(r.rest);
    }
  }

  lemma {:induction false} EatTargetListTail(t: Toks)
    ensures Eaten(t, TargetListTail(t))
    decreases Len(t), 39
  {
    hide ParseTargetAtom, Apart, Exit, Shared;
    if At0(t, Comma) {
      Past(t);
      EatTargetAtom(t.tl);
      var r := ParseTargetAtom(t.tl);
      if r.Ok? {
        EatTargetListTail(r.rest);
      }
    }
  }

  lemma {:induction false} EatTargetAtom(t: Toks)
    ensures Eaten(t, ParseTargetAtom(t))
    decreases Len(t), 38
  {
    hide ParseParenAtom, TrailerTail, TargetElts, TargetTail, Exit, Shared, Apart;
    if At0(t, Star) {
      Past(t);
      EatTargetAtom(t.tl);
    } else if At0(t, LPar) {
      EatParenAtom(t.tl);
      var r := ParseParenAtom(t.tl);
      if r.Ok? {
        Enclosed(t, r.rest);
        EatTrailerTail(r.v, r.rest);
      }
    } else if At0(t, LBrk) {
      EatTargetElts(t.tl);
      var r := TargetElts(t.tl);
      if r.Ok? && At0(r.rest, RBrk) {
        Past(r.rest);
        Enclosed(t, r.rest.tl);
      }
    } else if t.Cons? && t.hd.Nm? {
      Past(t);
      EatTargetTail(Name(WordText(t.hd.w)), t.tl);
    }
  }

  lemma {:induction false} EatTargetElts(t: Toks)
    ensures Eaten(t, TargetElts(t))
    decreases Len(t), 39
  {
    hide ParseTargetAtom, Apart;
    EatTargetAtom(t);
    var r := ParseTargetAtom(t);
    if r.Ok? && At0(r.rest, Comma) {
      EatTargetElts(r.rest.tl);
    }
  }

  lemma {:induction false} EatTargetTail(e: Expr, t: Toks)
    ensures Eaten(t, TargetTail(e, t))
    decreases Len(t), 3
  {
    hide ParseAttrName, ParseSubscriptBody, Exit, Shared, Apart;
    if At0(t, Dot) {
      Past(t);
      EatAttrName(t.tl);
      var r := ParseAttrName(t.tl);
      if r.Ok? {
        EatTargetTail(Attribute(e, r.v), r.rest);
      }
    } else if At0(t, LBrk) {
      EatSubscriptBody(t.tl);
      var r := ParseSubscriptBody(t.tl);
      if r.Ok? && At0(r.rest, RBrk) {
        Past(r.rest);
        Enclosed(t, r.rest.tl);
        EatTargetTail(Subscript(e, r.v), r.rest.tl);
      }
    }
  }

  lemma {:induction false} EatLambda(t: Toks)
    requires IsKw(t, KwLambda)
    ensures Eaten(t, ParseLambda(t))
    decreases Len(t), 29
  {
    hide LambdaArgs, ParseExpr, Apart;
    EatLambdaArgs(NO_ARGS, false, t.tl);
    var r := LambdaArgs(NO_ARGS, false, t.tl);
    if r.Ok? && At0(r.rest, Colon) {
      EatExpr(r.rest.tl);
    }
  }

  lemma {:induction false} EatLambdaArgs(a: Arguments, kwonly: bool, t: Toks)
    ensures Eaten(t, LambdaArgs(a, kwonly, t))
    decreases Len(t), 41
  {
    hide LambdaArg, LambdaNext, Apart;
    EatLambdaArg(a, kwonly, t);
    var r := LambdaArg(a, kwonly, t);
    if r.Ok? {
      EatLambdaNext(r.v.0, r.v.1, r.rest);
    }
  }

  lemma {:induction false} EatLambdaNext(a: Arguments, kwonly: bool, t: Toks)
    ensures Eaten(t, LambdaNext(a, kwonly, t))
    decreases Len(t), 40
  {
    hide LambdaArgs, Apart;
    if At0(t, Comma) {
      EatLambdaArgs(a, kwonly, t.tl);
    }
  }

  lemma {:induction false} EatLambdaArg(a: Arguments, kwonly: bool, t: Toks)
    ensures Eaten(t, LambdaArg(a, kwonly, t))
    decreases Len(t), 40
  {
    hide ParseAttrName, ParseDefault, Apart;
    if At0(t, Star) || At0(t, DStar) {
      EatAttrName(t.tl);
    } else {
      EatAttrName(t);
      var r := ParseAttrName(t);
      if r.Ok? {
        EatDefault(r.rest);
      }
    }
  }

  lemma {:induction false} EatDefault(t: Toks)
    ensures Eaten(t, ParseDefault(t))
    decreases Len(t), 39
  {
    hide ParseExpr, Apart;
    if At0(t, Assign) {
      EatExpr(t.tl);
    }
  }
}
