/** Match patterns: their printer (ast/unparse.go) and their parser (parser/stmt.go) as functions
    on tokens. */
module Patterns {
  import opened Tokens
  import opened Ast
  import opened Unparse
  import opened Grammar

  datatype Pattern =
    | MatchValue(value: Expr)
    | MatchSingleton(c: Const)
    | MatchSequence(items: seq<Pattern>)
    | MatchMapping(entries: seq<Entry>, rest: Option<string>)
    | MatchClass(cls: Expr, positional: seq<Pattern>, keywords: seq<KwPattern>)
    | MatchStar(name: Option<string>)
    | MatchAs(pattern: Option<Pattern>, name: Option<string>)
    | MatchOr(alternatives: seq<Pattern>)

  datatype Entry = Entry(key: Expr, pattern: Pattern)
  datatype KwPattern = KwPattern(attr: string, pattern: Pattern)

  const WILDCARD := "_"

  // ----- printing -----

  function PrintPattern(p: Pattern, k: Toks): Toks
    decreases p, 0
  {
    match p
    case MatchValue(e) => Print(e, P_TEST, k)
    case MatchSingleton(c) => Cons(ConstTok(c), k)
    case MatchSequence(ps) => Cons(LBrk, PrintList(ps, true, Cons(RBrk, k)))
    case MatchMapping(es, rest) => Cons(LBrc, PrintEntries(es, true, PrintRest(rest, es == [], Cons(RBrc, k))))
    case MatchClass(cls, ps, kws) =>
      Print(cls, P_ATOM, Cons(LPar, PrintList(ps, true, PrintKwPatterns(kws, ps == [], Cons(RPar, k)))))
    case MatchStar(name) => Cons(Star, Cons(Nm(Ident(if name.Some? then name.value else WILDCARD)), k))
    case MatchAs(None, None) => Cons(Nm(Ident(WILDCARD)), k)
    case MatchAs(None, Some(n)) => Cons(Nm(Ident(n)), k)
    case MatchAs(Some(q), n) =>
      var k' := Cons(Nm(KwAs), if n.Some? then Cons(Nm(Ident(n.value)), k) else k);
      if q.MatchAs? then InParens(q, k') else PrintPattern(q, k')
    case MatchOr(ps) => PrintAlternatives(ps, true, k)
  }

  function InParens(p: Pattern, k: Toks): Toks
    decreases p, 1
  {
    Cons(LPar, PrintPattern(p, Cons(RPar, k)))
  }

  /** An alternative: one that `|` or `as` would merge with is put in parentheses. */
  function PrintAlternative(p: Pattern, k: Toks): Toks
    decreases p, 2
  {
    if p.MatchAs? || p.MatchOr? then InParens(p, k) else PrintPattern(p, k)
  }

  function PrintAlternatives(ps: seq<Pattern>, first: bool, k: Toks): Toks
    decreases ps
  {
    if ps == [] then k
    else
      var t := PrintAlternative(ps[0], PrintAlternatives(ps[1..], false, k));
      if first then t else Cons(Pipe, t)
  }

  function PrintList(ps: seq<Pattern>, first: bool, k: Toks): Toks
    decreases ps
  {
    if ps == [] then k else Sep(first, PrintPattern(ps[0], PrintList(ps[1..], false, k)))
  }

  function PrintEntries(es: seq<Entry>, first: bool, k: Toks): Toks
    decreases es
  {
    if es == [] then k else Sep(first, PrintEntry(es[0], PrintEntries(es[1..], false, k)))
  }

  function PrintEntry(e: Entry, k: Toks): Toks
    decreases e
  {
    Print(e.key, P_TEST, Cons(Colon, PrintPattern(e.pattern, k)))
  }

  function PrintRest(rest: Option<string>, first: bool, k: Toks): Toks {
    match rest
    case None => k
    case Some(n) => Sep(first, Cons(DStar, Cons(Nm(Ident(n)), k)))
  }

  function PrintKwPatterns(kws: seq<KwPattern>, first: bool, k: Toks): Toks
    decreases kws
  {
    if kws == [] then k else Sep(first, PrintKwPattern(kws[0], PrintKwPatterns(kws[1..], false, k)))
  }

  function PrintKwPattern(kw: KwPattern, k: Toks): Toks
    decreases kw
  {
    Cons(Nm(Ident(kw.attr)), Cons(Assign, PrintPattern(kw.pattern, k)))
  }

  // ----- parsing -----

  /** The words the pattern parser refuses as captures: keywords, `match` and `case` among them. */
  predicate IsReserved(w: Word) {
    !w.Ident? || w.id == "match" || w.id == "case"
  }

  /** The pattern of a case: without brackets, a sequence of several. */
  function ParsePatterns(t: Toks): (r: Res<Pattern>)
    ensures r.Ok? ==> Len(r.rest) < Len(t)
  {
    var (first, r1) :- ParseMaybeStar(t);
    if !At0(r1, Comma) then (if first.MatchStar? then Err else Ok(first, r1))
    else
      var (ps, r2) :- OpenTail(r1);
      Ok(MatchSequence([first] + ps), r2)
  }

  function OpenTail(t: Toks): (r: Res<seq<Pattern>>)
    ensures r.Ok? ==> Len(r.rest) <= Len(t)
    decreases Len(t)
  {
    if !At0(t, Comma) then Ok([], t)
    else if At0(t.tl, Colon) || IsKw(t.tl, KwIf) then Ok([], t.tl)
    else
      var (p, r1) :- ParseMaybeStar(t.tl);
      var (ps, r2) :- OpenTail(r1);
      Ok([p] + ps, r2)
  }

  /** A pattern, or a star and a name; only the latter gives a MatchStar. */
  function ParseMaybeStar(t: Toks): (r: Res<Pattern>)
    ensures r.Ok? ==> Len(r.rest) < Len(t)
    decreases Len(t), 10
  {
    if At0(t, Star) then
      if t.tl.Cons? && t.tl.hd.Nm? then
        var name := WordText(t.tl.hd.w);
        assert Len(t) == 1 + Len(t.tl);
        Ok(MatchStar(if name == WILDCARD then None else Some(name)), t.tl.tl)
      else Err
    else ParseAs(t)
  }

  function ParseAs(t: Toks): (r: Res<Pattern>)
    ensures r.Ok? ==> Len(r.rest) < Len(t) && !r.v.MatchStar?
    decreases Len(t), 9
  {
    var (p, r1) :- ParseAlternatives(t);
    if !IsKw(r1, KwAs) then Ok(p, r1)
    else if !AtPlainName(r1.tl) || r1.tl.hd.w.id == WILDCARD then Err
    else
      assert Len(r1) == 1 + Len(r1.tl);
      Ok(MatchAs(Some(p), Some(r1.tl.hd.w.id)), r1.tl.tl)
  }

  function ParseAlternatives(t: Toks): (r: Res<Pattern>)
    ensures r.Ok? ==> Len(r.rest) < Len(t) && !r.v.MatchStar?
    decreases Len(t), 8
  {
    var (p, r1) :- ParseClosed(t);
    if !At0(r1, Pipe) then Ok(p, r1)
    else
      var (ps, r2) :- AlternativesTail(r1);
      Ok(MatchOr([p] + ps), r2)
  }

  function AlternativesTail(t: Toks): (r: Res<seq<Pattern>>)
    ensures r.Ok? ==> Len(r.rest) <= Len(t)
    decreases Len(t), 7
  {
    if !At0(t, Pipe) then Ok([], t)
    else
      var (p, r1) :- ParseClosed(t.tl);
      var (ps, r2) :- AlternativesTail(r1);
      Ok([p] + ps, r2)
  }

  function ParseClosed(t: Toks): (r: Res<Pattern>)
    ensures r.Ok? ==> Len(r.rest) < Len(t) && !r.v.MatchStar?
    decreases Len(t), 6
  {
    if t.End? then Err
    else match t.hd
      case IntLit(_) | FloatLit(_) | StrLit(_, _) | Plus | Minus =>
        var (e, r1) :- ParseLiteral(t);
        Ok(MatchValue(e), r1)
      case LBrk =>
        var (ps, r1) :- BracketItems(t.tl);
        var (_, r2) :- Expect(r1, RBrk);
        Ok(MatchSequence(ps), r2)
      case LPar => ParseGroup(t.tl)
      case LBrc => ParseMapping(t.tl)
      case Nm(KwNone) => Ok(MatchSingleton(CNone), t.tl)
      case Nm(KwTrue) => Ok(MatchSingleton(CTrue), t.tl)
      case Nm(KwFalse) => Ok(MatchSingleton(CFalse), t.tl)
      case Nm(w) => if w == Ident(WILDCARD) then Ok(MatchAs(None, None), t.tl) else ParseNameStarted(w, t.tl)
      case _ => Err
  }

  /** A signed number, a sum or difference of a signed number and a number, or strings. */
  function ParseLiteral(t: Toks): (r: Res<Expr>)
    ensures r.Ok? ==> Len(r.rest) < Len(t)
  {
    if t.Cons? && t.hd.StrLit? then StringTail(t.hd.kind, t.hd.val, t.tl)
    else
      var (num, r1) :- ParseSigned(t);
      if At0(r1, Plus) || At0(r1, Minus) then
        var (imag, r2) :- ParseNumber(r1.tl);
        Ok(BinOp(if r1.hd == Minus then Sub else Add, num, imag), r2)
      else Ok(num, r1)
  }

  function ParseSigned(t: Toks): (r: Res<Expr>)
    ensures r.Ok? ==> Len(r.rest) < Len(t)
  {
    if At0(t, Plus) || At0(t, Minus) then
      var (x, r) :- ParseNumber(t.tl);
      Ok(UnaryOp(if t.hd == Minus then USub else UAdd, x), r)
    else ParseNumber(t)
  }

  function ParseNumber(t: Toks): (r: Res<Expr>)
    ensures r.Ok? ==> Len(r.rest) < Len(t)
  {
    if t.Cons? && t.hd.IntLit? then Ok(Constant(CInt(t.hd.digits)), t.tl)
    else if t.Cons? && t.hd.FloatLit? then Ok(Constant(CFloat(t.hd.text)), t.tl)
    else Err
  }

  /** A capture, a dotted value or a class pattern, after its first name. */
  function ParseNameStarted(w: Word, t: Toks): (r: Res<Pattern>)
    ensures r.Ok? ==> Len(r.rest) <= Len(t) && !r.v.MatchStar?
    decreases Len(t), 5
  {
    if !At0(t, Dot) then
      if At0(t, LPar) then ParseClassArgs(Name(WordText(w)), t.tl)
      else if IsReserved(w) && w != Ident("match") && w != Ident("case") then Err
      else Ok(MatchAs(None, Some(WordText(w))), t)
    else
      var (e, r1) :- Dotted(Name(WordText(w)), t);
      if At0(r1, LPar) then ParseClassArgs(e, r1.tl) else Ok(MatchValue(e), r1)
  }

  function Dotted(e: Expr, t: Toks): (r: Res<Expr>)
    ensures r.Ok? ==> Len(r.rest) <= Len(t)
    decreases Len(t)
  {
    if !At0(t, Dot) then Ok(e, t)
    else
      var (a, r1) :- ParseAttrName(t.tl);
      Dotted(Attribute(e, a), r1)
  }

  function ParseClassArgs(cls: Expr, t: Toks): (r: Res<Pattern>)
    ensures r.Ok? ==> Len(r.rest) < Len(t) && !r.v.MatchStar?
    decreases Len(t), 12
  {
    var (a, r1) :- ClassItems(false, t);
    var (_, r2) :- Expect(r1, RPar);
    Ok(MatchClass(cls, a.positional, a.keywords), r2)
  }

  datatype ClassArgs = ClassArgs(positional: seq<Pattern>, keywords: seq<KwPattern>)

  /** The loop over class arguments; none without a keyword may follow one with a keyword. */
  function ClassItems(seenKw: bool, t: Toks): (r: Res<ClassArgs>)
    ensures r.Ok? ==> Len(r.rest) <= Len(t)
    decreases Len(t), 11
  {
    if At0(t, RPar) then Ok(ClassArgs([], []), t)
    else if AtPlainName(t) && At0(t.tl, Assign) then
      assert Len(t) == 1 + Len(t.tl);
      var (p, r1) :- ParseAs(t.tl.tl);
      ClassNext(true, ClassArgs([], [KwPattern(t.hd.w.id, p)]), r1)
    else if seenKw then Err
    else
      var (p, r1) :- ParseAs(t);
      ClassNext(false, ClassArgs([p], []), r1)
  }

  function ClassNext(seenKw: bool, a: ClassArgs, t: Toks): (r: Res<ClassArgs>)
    ensures r.Ok? ==> Len(r.rest) <= Len(t)
    decreases Len(t), 12
  {
    if !At0(t, Comma) then Ok(a, t)
    else
      var (b, r1) :- ClassItems(seenKw, t.tl);
      Ok(ClassArgs(a.positional + b.positional, a.keywords + b.keywords), r1)
  }

  /** The items of a sequence in brackets. */
  function BracketItems(t: Toks): (r: Res<seq<Pattern>>)
    ensures r.Ok? ==> Len(r.rest) <= Len(t)
    decreases Len(t), 11
  {
    if At0(t, RBrk) then Ok([], t)
    else
      var (p, r1) :- ParseMaybeStar(t);
      if !At0(r1, Comma) then Ok([p], r1)
      else
        var (ps, r2) :- BracketItems(r1.tl);
        Ok([p] + ps, r2)
  }

  /** After an opening parenthesis: a group, or a sequence. */
  function ParseGroup(t: Toks): (r: Res<Pattern>)
    ensures r.Ok? ==> Len(r.rest) < Len(t) && !r.v.MatchStar?
    decreases Len(t), 11
  {
    if At0(t, RPar) then Ok(MatchSequence([]), t.tl)
    else
      var (first, r1) :- ParseMaybeStar(t);
      if At0(r1, RPar) then Ok(if first.MatchStar? then MatchSequence([first]) else first, r1.tl)
      else
        var (ps, r2) :- GroupTail(r1);
        var (_, r3) :- Expect(r2, RPar);
        Ok(MatchSequence([first] + ps), r3)
  }

  function GroupTail(t: Toks): (r: Res<seq<Pattern>>)
    ensures r.Ok? ==> Len(r.rest) <= Len(t)
    decreases Len(t), 11
  {
    if !At0(t, Comma) then Ok([], t)
    else if At0(t.tl, RPar) then Ok([], t.tl)
    else
      var (p, r1) :- ParseMaybeStar(t.tl);
      var (ps, r2) :- GroupTail(r1);
      Ok([p] + ps, r2)
  }

  datatype MapItems = MapItems(entries: seq<Entry>, rest: Option<string>)

  function ParseMapping(t: Toks): (r: Res<Pattern>)
    ensures r.Ok? ==> Len(r.rest) < Len(t) && !r.v.MatchStar?
    decreases Len(t), 12
  {
    var (m, r1) :- MappingItems(t);
    var (_, r2) :- Expect(r1, RBrc);
    Ok(MatchMapping(m.entries, m.rest), r2)
  }

  /** The loop over the entries of a mapping; `**name` ends it. */
  function MappingItems(t: Toks): (r: Res<MapItems>)
    ensures r.Ok? ==> Len(r.rest) <= Len(t)
    decreases Len(t), 11
  {
    if At0(t, RBrc) then Ok(MapItems([], None), t)
    else if At0(t, DStar) then
      if t.tl.Cons? && t.tl.hd.Nm? && !IsReserved(t.tl.hd.w) then
        assert Len(t) == 1 + Len(t.tl);
        var u := t.tl.tl;
        Ok(MapItems([], Some(WordText(t.tl.hd.w))), if At0(u, Comma) then u.tl else u)
      else Err
    else
      var (key, r1) :- ParseKey(t);
      var (_, r2) :- Expect(r1, Colon);
      var (p, r3) :- ParseAs(r2);
      if !At0(r3, Comma) then Ok(MapItems([Entry(key, p)], None), r3)
      else
        var (m, r4) :- MappingItems(r3.tl);
        Ok(MapItems([Entry(key, p)] + m.entries, m.rest), r4)
  }

  function ParseKey(t: Toks): (r: Res<Expr>)
    ensures r.Ok? ==> Len(r.rest) < Len(t)
  {
    if t.End? then Err
    else match t.hd
      case IntLit(_) | FloatLit(_) | StrLit(_, _) | Plus | Minus => ParseLiteral(t)
      case Nm(KwNone) => Ok(Constant(CNone), t.tl)
      case Nm(KwTrue) => Ok(Constant(CTrue), t.tl)
      case Nm(KwFalse) => Ok(Constant(CFalse), t.tl)
      case Nm(w) => Dotted(Name(WordText(w)), t.tl)
      case _ => Err
  }
}
