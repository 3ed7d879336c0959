/** A printed pattern, read back: the pattern itself, exactly when none of its class names and values
    begins with the wildcard and none of its mappings collects the rest as `match` or `case`. */
module PatternRoundTrip {
  import opened Tokens
  import opened Ast
  import opened Unparse
  import opened Grammar
  import opened Patterns

  // ----- patterns of Python's grammar -----

  predicate IsNumber(e: Expr) {
    e.Constant? && (e.c.CInt? || e.c.CFloat?)
  }

  predicate IsSigned(e: Expr) {
    IsNumber(e) || (e.UnaryOp? && (e.uop == UAdd || e.uop == USub) && IsNumber(e.operand))
  }

  predicate IsLiteral(e: Expr) {
    || IsSigned(e)
    || (e.BinOp? && (e.op == Add || e.op == Sub) && IsSigned(e.left) && IsNumber(e.right))
    || (e.Constant? && e.c.CStr?)
  }

  predicate IsDotted(e: Expr) {
    e.Name? || (e.Attribute? && IsDotted(e.avalue))
  }

  function Base(e: Expr): string
    requires IsDotted(e)
  {
    if e.Name? then e.id else Base(e.avalue)
  }

  predicate IsSingleton(c: Const) {
    c == CNone || c == CTrue || c == CFalse
  }

  predicate IsKey(e: Expr) {
    IsLiteral(e) || IsDotted(e) || (e.Constant? && IsSingleton(e.c))
  }

  predicate NameFits(n: Option<string>) {
    n != Some(WILDCARD)
  }

  predicate WfPattern(p: Pattern)
    decreases p, 0
  {
    match p
    case MatchValue(e) => IsLiteral(e) || (e.Attribute? && IsDotted(e))
    case MatchSingleton(c) => IsSingleton(c)
    case MatchSequence(ps) => WfItems(ps)
    case MatchMapping(es, _) => WfEntries(es)
    case MatchClass(cls, ps, kws) => IsDotted(cls) && WfPatterns(ps) && WfKwPatterns(kws)
    case MatchStar(_) => false
    case MatchAs(None, n) => NameFits(n)
    case MatchAs(Some(q), n) => n.Some? && NameFits(n) && WfPattern(q)
    case MatchOr(ps) => |ps| >= 2 && WfPatterns(ps)
  }

  predicate WfPatterns(ps: seq<Pattern>)
    decreases ps
  {
    ps == [] || (WfPattern(ps[0]) && WfPatterns(ps[1..]))
  }

  /** An item of a sequence may be starred. */
  predicate WfItem(p: Pattern)
    decreases p, 1
  {
    if p.MatchStar? then NameFits(p.name) else WfPattern(p)
  }

  predicate WfItems(ps: seq<Pattern>)
    decreases ps
  {
    ps == [] || (WfItem(ps[0]) && WfItems(ps[1..]))
  }

  predicate WfEntries(es: seq<Entry>)
    decreases es
  {
    es == [] || (WfEntry(es[0]) && WfEntries(es[1..]))
  }

  predicate WfEntry(e: Entry)
    decreases e
  {
    IsKey(e.key) && WfPattern(e.pattern)
  }

  predicate WfKwPatterns(kws: seq<KwPattern>)
    decreases kws
  {
    kws == [] || (WfKwPattern(kws[0]) && WfKwPatterns(kws[1..]))
  }

  predicate WfKwPattern(kw: KwPattern)
    decreases kw
  {
    WfPattern(kw.pattern)
  }

  // ----- the patterns that come back -----

  predicate DottedFits(e: Expr) {
    IsDotted(e) ==> Base(e) != WILDCARD
  }

  predicate RestFits(n: Option<string>) {
    n != Some("match") && n != Some("case")
  }

  predicate Faithful(p: Pattern)
    decreases p, 0
  {
    match p
    case MatchValue(e) => DottedFits(e)
    case MatchSingleton(_) => true
    case MatchSequence(ps) => AllFaithful(ps)
    case MatchMapping(es, rest) => EntriesFaithful(es) && RestFits(rest)
    case MatchClass(cls, ps, kws) => DottedFits(cls) && AllFaithful(ps) && KwsFaithful(kws)
    case MatchStar(_) => true
    case MatchAs(None, _) => true
    case MatchAs(Some(q), _) => Faithful(q)
    case MatchOr(ps) => AllFaithful(ps)
  }

  predicate AllFaithful(ps: seq<Pattern>)
    decreases ps
  {
    ps == [] || (Faithful(ps[0]) && AllFaithful(ps[1..]))
  }

  predicate EntriesFaithful(es: seq<Entry>)
    decreases es
  {
    es == [] || (EntryFaithful(es[0]) && EntriesFaithful(es[1..]))
  }

  predicate EntryFaithful(e: Entry)
    decreases e
  {
    Faithful(e.pattern)
  }

  predicate KwsFaithful(kws: seq<KwPattern>)
    decreases kws
  {
    kws == [] || (KwFaithful(kws[0]) && KwsFaithful(kws[1..]))
  }

  predicate KwFaithful(kw: KwPattern)
    decreases kw
  {
    Faithful(kw.pattern)
  }

  // ----- what may follow -----

  /** A token that would go on a literal, a dotted name or a class. */
  predicate GoesOn(k: Toks) {
    k.Cons? && (k.hd.Dot? || k.hd.LPar? || k.hd.Plus? || k.hd.Minus? || k.hd.StrLit?)
  }

  /** A token that would go on any pattern. */
  predicate Extends(k: Toks) {
    GoesOn(k) || At0(k, Pipe) || IsKw(k, KwAs)
  }

  /** A parse that failed, or that stopped before what it should have read. */
  predicate Stuck<T>(r: Res<T>) {
    r.Ok? ==> At0(r.rest, Dot) || At0(r.rest, LPar)
  }

  predicate Comes<T(==)>(faithful: bool, r: Res<T>, v: T, k: Toks) {
    if faithful then r == Ok(v, k) else Stuck(r)
  }

  // ----- literals and dotted names -----

  lemma LiteralBack(e: Expr, k: Toks)
    requires IsLiteral(e) && !GoesOn(k)
    ensures var t := Print(e, P_TEST, k);
            && t.Cons? && (t.hd.IntLit? || t.hd.FloatLit? || t.hd.StrLit? || t.hd == Plus || t.hd == Minus)
            && ParseLiteral(t) == Ok(e, k)
  {
    hide Print, ParseSigned;
    if e.BinOp? {
      SumBack(e, k);
    } else if IsSigned(e) {
      SignedBack(e, P_TEST, k);
    } else {
      ConstPrinted(e.c, k);
    }
  }

  lemma SumPrinted(e: Expr, k: Toks)
    requires e.BinOp? && (e.op == Add || e.op == Sub) && e.right.Constant?
    ensures Print(e, P_TEST, k) == Print(e.left, P_ARITH, Cons(OpSym(e.op), Cons(ConstTok(e.right.c), k)))
  {
    assert Print(e.right, P_ARITH + 1, k) == Cons(ConstTok(e.right.c), k);
  }

  lemma SumBack(e: Expr, k: Toks)
    requires e.BinOp? && (e.op == Add || e.op == Sub) && IsSigned(e.left) && IsNumber(e.right)
    ensures var t := Print(e, P_TEST, k);
            && t.Cons? && (t.hd.IntLit? || t.hd.FloatLit? || t.hd == Plus || t.hd == Minus)
            && ParseLiteral(t) == Ok(e, k)
  {
    hide Print, ParseSigned;
    var u := Cons(ConstTok(e.right.c), k);
    SumPrinted(e, k);
    SignedBack(e.left, P_ARITH, Cons(OpSym(e.op), u));
  }

  lemma SignedBack(e: Expr, p: nat, k: Toks)
    requires IsSigned(e) && p <= P_FACTOR
    ensures var t := Print(e, p, k);
            && t.Cons? && (t.hd.IntLit? || t.hd.FloatLit? || t.hd == Plus || t.hd == Minus)
            && ParseSigned(t) == Ok(e, k)
  {
    hide Print;
    if e.UnaryOp? {
      UnaryText(e.uop, e.operand, p, k);
      NumberText(e.operand, P_FACTOR, k);
    } else {
      NumberText(e, p, k);
    }
  }

  lemma UnaryText(op: UnaryKind, x: Expr, p: nat, k: Toks)
    requires op != Not && p <= P_FACTOR
    ensures Print(UnaryOp(op, x), p, k) == Cons(UnarySym(op), Print(x, P_FACTOR, k))
  {
    assert Print(UnaryOp(op, x), p, k) == Bare(UnaryOp(op, x), k);
    hide Print;
  }

  lemma NumberText(e: Expr, p: nat, k: Toks)
    requires e.Constant? && p <= P_ATOM
    ensures Print(e, p, k) == Cons(ConstTok(e.c), k)
  {
  }

  /** A dotted name is printed as its base and a tail that Dotted reads. */
  lemma {:induction false} DottedBack(e: Expr, p: nat, k: Toks) returns (t: Toks)
    requires IsDotted(e) && p <= P_ATOM
    ensures Print(e, p, k) == Cons(Nm(Ident(Base(e))), t)
    ensures Dotted(Name(Base(e)), t) == Dotted(e, k)
    ensures e.Attribute? ==> At0(t, Dot)
    ensures e.Name? ==> t == k
    decreases e
  {
    if e.Name? {
      t := k;
    } else {
      var k' := Cons(Dot, Cons(Nm(Ident(e.attr)), k));
      assert Print(e, p, k) == Bare(e, k) == PrintAttrValue(e.avalue, k') == Print(e.avalue, P_ATOM, k');
      t := DottedBack(e.avalue, P_ATOM, k');
      assert Dotted(e.avalue, k') == Dotted(e, k);
    }
  }

  lemma ConstPrinted(c: Const, k: Toks)
    ensures Print(Constant(c), P_TEST, k) == Cons(ConstTok(c), k)
  {
  }

  lemma KeyBack(e: Expr, k: Toks)
    requires IsKey(e) && !GoesOn(k)
    ensures var t := Print(e, P_TEST, k); t.Cons? && t.hd != RBrc && t.hd != DStar && ParseKey(t) == Ok(e, k)
  {
    hide Print, ParseLiteral, Dotted;
    if IsLiteral(e) {
      LiteralBack(e, k);
    } else if IsDotted(e) {
      var t := DottedBack(e, P_TEST, k);
      DottedEnds(e, k);
    } else {
      ConstPrinted(e.c, k);
    }
  }

  // ----- how a printed pattern begins -----

  predicate StartTok(x: Tok) {
    x.IntLit? || x.FloatLit? || x.StrLit? || x == Plus || x == Minus || x == LBrk || x == LPar || x == LBrc
    || (x.Nm? && x.w != KwIf)
  }

  /** It begins with no closer, star or comma, and does not look like a keyword argument. */
  lemma {:induction false} Starts(p: Pattern, k: Toks)
    requires WfPattern(p)
    ensures var t := PrintPattern(p, k);
            && t.Cons? && StartTok(t.hd)
            && (!At0(k, Assign) ==> !(AtPlainName(t) && At0(Rest(t), Assign)))
    decreases p
  {
    hide Print;
    match p
    case MatchValue(e) =>
      if IsLiteral(e) {
        LiteralStarts(e, k);
      } else {
        var t := DottedBack(e, P_TEST, k);
      }
    case MatchClass(cls, ps, kws) =>
      var t := DottedBack(cls, P_ATOM, Cons(LPar, PrintList(ps, true, PrintKwPatterns(kws, ps == [], Cons(RPar, k)))));
    case MatchAs(Some(q), n) =>
      Starts(q, Cons(Nm(KwAs), if n.Some? then Cons(Nm(Ident(n.value)), k) else k));
    case MatchOr(ps) =>
      var k' := PrintAlternatives(ps[1..], false, k);
      assert ps[1..] != [] && At0(k', Pipe);
      Starts(ps[0], k');
      assert PrintPattern(p, k) == PrintAlternatives(ps, true, k) == PrintAlternative(ps[0], k');
      if ps[0].MatchAs? || ps[0].MatchOr? {
        assert PrintAlternative(ps[0], k') == InParens(ps[0], k');
      }
    case _ =>
  }

  lemma LiteralStarts(e: Expr, k: Toks)
    requires IsLiteral(e)
    ensures var t := Print(e, P_TEST, k);
            t.Cons? && (t.hd.IntLit? || t.hd.FloatLit? || t.hd.StrLit? || t.hd == Plus || t.hd == Minus)
  {
    hide Print, ParseSigned;
    if e.BinOp? {
      SumPrinted(e, k);
      SignedBack(e.left, P_ARITH, Cons(OpSym(e.op), Cons(ConstTok(e.right.c), k)));
    } else if IsSigned(e) {
      SignedBack(e, P_TEST, k);
    } else {
      ConstPrinted(e.c, k);
    }
  }

  // ----- level by level -----

  predicate IsClosed(p: Pattern) {
    !p.MatchOr? && !(p.MatchAs? && p.pattern.Some?) && !p.MatchStar?
  }

  lemma {:induction false} ReadClosed(p: Pattern, k: Toks)
    requires WfPattern(p) && IsClosed(p) && !GoesOn(k)
    ensures Comes(Faithful(p), ParseClosed(PrintPattern(p, k)), p, k)
    decreases p, 1
  {
    hide Print, PrintPattern, ParseClosed, Faithful, Comes;
    match p
    case MatchValue(e) => ReadValue(e, k);
    case MatchSingleton(c) => ReadSingleton(c, k);
    case MatchSequence(ps) => ReadSequence(ps, k);
    case MatchMapping(es, rest) => ReadMapping(es, rest, k);
    case MatchClass(_, _, _) => ReadClass(p, k);
    case MatchAs(_, n) => ReadCapture(n, k);
  }

  lemma ReadValue(e: Expr, k: Toks)
    requires (IsLiteral(e) || (e.Attribute? && IsDotted(e))) && !GoesOn(k)
    ensures var p := MatchValue(e); Comes(Faithful(p), ParseClosed(PrintPattern(p, k)), p, k)
  {
    hide Print, ParseLiteral, Dotted, ParseClassArgs, ParseMapping, BracketItems;
    if IsLiteral(e) {
      LiteralBack(e, k);
    } else {
      var t := DottedBack(e, P_TEST, k);
      DottedEnds(e, k);
      NameStep(Base(e), t);
    }
  }

  lemma ReadSingleton(c: Const, k: Toks)
    requires IsSingleton(c)
    ensures var p := MatchSingleton(c); Comes(Faithful(p), ParseClosed(PrintPattern(p, k)), p, k)
  {
  }

  lemma ReadCapture(n: Option<string>, k: Toks)
    requires NameFits(n) && !GoesOn(k)
    ensures var p := MatchAs(None, n); Comes(Faithful(p), ParseClosed(PrintPattern(p, k)), p, k)
  {
    hide ParseClosed, ParseClassArgs, Dotted;
    var name := if n.Some? then n.value else WILDCARD;
    assert PrintPattern(MatchAs(None, n), k) == Cons(Nm(Ident(name)), k);
    NameStep(name, k);
  }

  lemma ReadSequence(ps: seq<Pattern>, k: Toks)
    requires WfItems(ps)
    ensures var p := MatchSequence(ps); Comes(Faithful(p), ParseClosed(PrintPattern(p, k)), p, k)
    decreases ps, 1
  {
    hide PrintList, BracketItems, AllFaithful;
    ReadItems(ps, k);
  }

  lemma DottedEnds(e: Expr, k: Toks)
    requires !At0(k, Dot)
    ensures Dotted(e, k) == Ok(e, k)
  {
  }

  lemma ReadClass(p: Pattern, k: Toks)
    requires p.MatchClass? && WfPattern(p)
    ensures Comes(Faithful(p), ParseClosed(PrintPattern(p, k)), p, k)
    decreases p, 0, 2
  {
    hide Print, PrintList, PrintKwPatterns, Dotted, ClassItems, AllFaithful, KwsFaithful, ParseClosed, Comes;
    var cls, ps, kws := p.cls, p.positional, p.keywords;
    var k' := Cons(LPar, PrintList(ps, true, PrintKwPatterns(kws, ps == [], Cons(RPar, k))));
    var t := DottedBack(cls, P_ATOM, k');
    DottedEnds(cls, k');
    assert ps[0..] == ps && kws[0..] == kws;
    ReadClassItems(p, 0, k);
    var u := PrintPattern(p, k);
    assert u == Cons(Nm(Ident(Base(cls))), t);
    ClassGoesOn(cls, t, k', AllFaithful(ps) && KwsFaithful(kws), ClassArgs(ps, kws), k);
  }

  /** A class pattern after its first name, given how its arguments are read. */
  lemma ClassGoesOn(cls: Expr, t: Toks, k': Toks, f: bool, a: ClassArgs, k: Toks)
    requires IsDotted(cls) && Dotted(Name(Base(cls)), t) == Ok(cls, k') && At0(k', LPar)
    requires (cls.Attribute? ==> At0(t, Dot)) && (cls.Name? ==> t == k')
    requires Comes(f, ClassItems(false, Rest(k')), a, Cons(RPar, k))
    ensures Comes(DottedFits(cls) && f, ParseClosed(Cons(Nm(Ident(Base(cls))), t)),
              MatchClass(cls, a.positional, a.keywords), k)
  {
    hide Dotted, ClassItems, ParseClosed;
    NameStep(Base(cls), t);
    if Base(cls) != WILDCARD {
      assert ParseNameStarted(Ident(Base(cls)), t) == ParseClassArgs(cls, k'.tl);
    }
  }

  lemma NameStep(b: string, t: Toks)
    ensures ParseClosed(Cons(Nm(Ident(b)), t)) == if b == WILDCARD then Ok(MatchAs(None, None), t)
      else ParseNameStarted(Ident(b), t)
  {
    hide ParseNameStarted;
  }

  lemma ReadMapping(es: seq<Entry>, rest: Option<string>, k: Toks)
    requires WfEntries(es)
    ensures var p := MatchMapping(es, rest);
            Comes(Faithful(p), ParseClosed(PrintPattern(p, k)), p, k)
    decreases es, 1, 0
  {
    hide PrintEntries, PrintRest, MappingItems, EntriesFaithful, RestFits;
    ReadEntries(es, rest, k);
  }

  lemma {:induction false} ReadWrapped(p: Pattern, k: Toks)
    requires WfPattern(p)
    ensures Comes(Faithful(p), ParseClosed(InParens(p, k)), p, k)
    decreases p, 4
  {
    hide PrintPattern, ParseAs, ParseClosed, Faithful, WfPattern, Comes;
    var u := PrintPattern(p, Cons(RPar, k));
    ReadAs(p, Cons(RPar, k));
    Starts(p, Cons(RPar, k));
    GroupRead(Faithful(p), p, u, k);
    assert InParens(p, k) == Cons(LPar, u);
  }

  lemma GroupRead(f: bool, p: Pattern, t: Toks, k: Toks)
    requires !At0(t, RPar) && !At0(t, Star) && Comes(f, ParseAs(t), p, Cons(RPar, k))
    ensures Comes(f, ParseClosed(Cons(LPar, t)), p, k)
  {
    hide ParseAs, ParseClosed;
    GroupStep(t);
  }

  /** A group is read as what is in it. */
  lemma GroupStep(t: Toks)
    requires !At0(t, RPar) && !At0(t, Star)
    ensures var r := ParseAs(t);
            && (r.Err? ==> ParseClosed(Cons(LPar, t)).Err?)
            && (r.Ok? && At0(r.rest, RPar) ==> ParseClosed(Cons(LPar, t)) == Ok(r.v, r.rest.tl))
            && (r.Ok? && !At0(r.rest, RPar) && !At0(r.rest, Comma) ==> ParseClosed(Cons(LPar, t)).Err?)
  {
    hide ParseAs, GroupTail;
    assert ParseClosed(Cons(LPar, t)) == ParseGroup(t);
    assert ParseMaybeStar(t) == ParseAs(t);
    if ParseAs(t).Ok? {
      NoTail(ParseAs(t).rest);
    }
  }

  lemma NoTail(t: Toks)
    ensures !At0(t, Comma) ==> GroupTail(t) == Ok([], t)
  {
  }

  lemma NoStar(p: Pattern)
    requires WfPattern(p)
    ensures !p.MatchStar?
  {
  }

  lemma {:induction false} ReadAlternative(p: Pattern, k: Toks)
    requires WfPattern(p) && !GoesOn(k)
    ensures Comes(Faithful(p), ParseClosed(PrintAlternative(p, k)), p, k)
    decreases p, 5
  {
    hide PrintPattern, ParseClosed, Faithful, WfPattern, InParens, Comes;
    if p.MatchAs? || p.MatchOr? {
      ReadWrapped(p, k);
    } else {
      NoStar(p);
      ReadClosed(p, k);
    }
  }

  lemma {:induction false} ReadTail(ps: seq<Pattern>, k: Toks)
    requires WfPatterns(ps) && !GoesOn(k) && !At0(k, Pipe)
    ensures Comes(AllFaithful(ps), AlternativesTail(PrintAlternatives(ps, false, k)), ps, k)
    decreases ps
  {
    hide PrintAlternative, ParseClosed, Faithful, WfPattern;
    if ps != [] {
      var k' := PrintAlternatives(ps[1..], false, k);
      assert ps[1..] != [] ==> At0(k', Pipe);
      ReadAlternative(ps[0], k');
      ReadTail(ps[1..], k);
      assert PrintAlternatives(ps, false, k) == Cons(Pipe, PrintAlternative(ps[0], k'));
      assert [ps[0]] + ps[1..] == ps;
    }
  }

  lemma {:induction false} ReadOr(p: Pattern, k: Toks)
    requires WfPattern(p) && !(p.MatchAs? && p.pattern.Some?) && !GoesOn(k) && !At0(k, Pipe)
    ensures Comes(Faithful(p), ParseAlternatives(PrintPattern(p, k)), p, k)
    decreases p, 2
  {
    hide ParseClosed, PrintAlternative, AlternativesTail;
    if p.MatchOr? {
      var ps := p.alternatives;
      var k' := PrintAlternatives(ps[1..], false, k);
      assert At0(k', Pipe);
      ReadAlternative(ps[0], k');
      ReadTail(ps[1..], k);
      assert PrintPattern(p, k) == PrintAlternatives(ps, true, k) == PrintAlternative(ps[0], k');
      assert [ps[0]] + ps[1..] == ps;
    } else {
      hide PrintPattern, Faithful;
      ReadClosed(p, k);
    }
  }

  lemma {:induction false} ReadAs(p: Pattern, k: Toks)
    requires WfPattern(p) && !Extends(k)
    ensures Comes(Faithful(p), ParseAs(PrintPattern(p, k)), p, k)
    decreases p, 3
  {
    hide PrintPattern, Faithful, ParseAs, ParseAlternatives, ParseClosed, InParens;
    if p.MatchAs? && p.pattern.Some? {
      var q, n := p.pattern.value, p.name.value;
      var k' := Cons(Nm(KwAs), Cons(Nm(Ident(n)), k));
      AsText(p, k);
      if q.MatchAs? {
        ReadWrapped(q, k');
        OneAlternative(InParens(q, k'));
      } else {
        ReadOr(q, k');
      }
      AsGlue(PrintPattern(p, k), Faithful(q), q, n, k);
    } else {
      ReadOr(p, k);
      NoAs(PrintPattern(p, k), Faithful(p), p, k);
    }
  }

  lemma AsText(p: Pattern, k: Toks)
    requires p.MatchAs? && p.pattern.Some? && p.name.Some?
    ensures var q, k' := p.pattern.value, Cons(Nm(KwAs), Cons(Nm(Ident(p.name.value)), k));
            PrintPattern(p, k) == if q.MatchAs? then InParens(q, k') else PrintPattern(q, k')
    ensures Faithful(p) == Faithful(p.pattern.value)
  {
    hide InParens;
  }

  lemma AsGlue(t: Toks, ok: bool, q: Pattern, n: string, k: Toks)
    requires n != WILDCARD
    requires Comes(ok, ParseAlternatives(t), q, Cons(Nm(KwAs), Cons(Nm(Ident(n)), k)))
    ensures Comes(ok, ParseAs(t), MatchAs(Some(q), Some(n)), k)
  {
    hide ParseAlternatives;
  }

  lemma NoAs(t: Toks, ok: bool, p: Pattern, k: Toks)
    requires !IsKw(k, KwAs) && Comes(ok, ParseAlternatives(t), p, k)
    ensures Comes(ok, ParseAs(t), p, k)
  {
    hide ParseAlternatives;
  }

  lemma OneAlternative(t: Toks)
    ensures ParseClosed(t).Err? ==> ParseAlternatives(t).Err?
    ensures ParseClosed(t).Ok? && !At0(ParseClosed(t).rest, Pipe) ==> ParseAlternatives(t) == ParseClosed(t)
  {
    hide ParseClosed;
  }

  /** A list after its first item. */
  lemma ListRest(ps: seq<Pattern>, k: Toks)
    ensures PrintList(ps, false, k) == if ps == [] then k else Cons(Comma, PrintList(ps, true, k))
  {
    hide PrintPattern;
  }

  /** An item, given how it and the ones after it are read. */
  lemma ItemGoesOn(x: Pattern, rest: seq<Pattern>, end: Toks)
    requires At0(end, RBrk)
    requires var t := PrintPattern(x, PrintList(rest, false, end));
             !At0(t, RBrk) && Comes(Faithful(x), ParseMaybeStar(t), x, PrintList(rest, false, end))
    requires Comes(AllFaithful(rest), BracketItems(PrintList(rest, true, end)), rest, end)
    ensures var ps := [x] + rest; Comes(AllFaithful(ps), BracketItems(PrintList(ps, true, end)), ps, end)
  {
    hide PrintPattern, PrintList, ParseMaybeStar, Faithful, BracketItems;
    var ps := [x] + rest;
    assert ps[0] == x && ps[1..] == rest;
    ListRest(rest, end);
    ListPrinted(ps, end);
    ItemsStep(PrintPattern(x, PrintList(rest, false, end)));
    assert rest == [] ==> ps == [x];
  }

  lemma ItemsOf(ps: seq<Pattern>)
    requires WfItems(ps) && ps != []
    ensures WfItem(ps[0]) && WfItems(ps[1..])
  {
  }

  lemma {:induction false} ReadItems(ps: seq<Pattern>, k: Toks)
    requires WfItems(ps)
    ensures Comes(AllFaithful(ps), BracketItems(PrintList(ps, true, Cons(RBrk, k))), ps, Cons(RBrk, k))
    decreases ps, 0
  {
    hide PrintPattern, PrintList, ParseMaybeStar, Faithful, WfItem, WfItems, BracketItems;
    var end := Cons(RBrk, k);
    if ps == [] {
      NoItems(k);
      ListPrinted([], end);
    } else {
      assert ps == [ps[0]] + ps[1..];
      ItemsOf(ps);
      ListRest(ps[1..], end);
      ReadItem(ps[0], PrintList(ps[1..], false, end));
      ReadItems(ps[1..], k);
      ItemGoesOn(ps[0], ps[1..], end);
    }
  }

  lemma NoItems(k: Toks)
    ensures BracketItems(Cons(RBrk, k)) == Ok([], Cons(RBrk, k))
  {
  }

  lemma ItemsStep(t: Toks)
    requires !At0(t, RBrk)
    ensures var r := ParseMaybeStar(t);
            BracketItems(t) ==
              if r.Err? then Err
              else if !At0(r.rest, Comma) then Ok([r.v], r.rest)
              else var m := BracketItems(r.rest.tl); if m.Err? then Err else Ok([r.v] + m.v, m.rest)
  {
    hide ParseMaybeStar;
  }

  lemma ReadItem(p: Pattern, k: Toks)
    requires WfItem(p) && !Extends(k)
    ensures Comes(Faithful(p), ParseMaybeStar(PrintPattern(p, k)), p, k)
    ensures !At0(PrintPattern(p, k), RBrk)
    decreases p, 4
  {
    hide ParseAs;
    if !p.MatchStar? {
      hide PrintPattern, Faithful;
      Starts(p, k);
      ReadAs(p, k);
    }
  }

  lemma EntriesRest(es: seq<Entry>, rest: Option<string>, k: Toks)
    ensures PrintEntries(es, false, PrintRest(rest, false, k)) ==
            if es == [] && rest == None then k else Cons(Comma, PrintEntries(es, true, PrintRest(rest, es == [], k)))
  {
    hide PrintEntry;
  }

  /** One turn of the loop over the entries of a mapping. */
  lemma EntryStep(key: Expr, t: Toks, u: Toks)
    requires !At0(t, RBrc) && !At0(t, DStar) && ParseKey(t) == Ok(key, Cons(Colon, u))
    ensures var r := ParseAs(u);
            MappingItems(t) ==
              if r.Err? then Err
              else if !At0(r.rest, Comma) then Ok(MapItems([Entry(key, r.v)], None), r.rest)
              else
                var m := MappingItems(r.rest.tl);
                if m.Err? then Err else Ok(MapItems([Entry(key, r.v)] + m.v.entries, m.v.rest), m.rest)
  {
    hide ParseKey, ParseAs;
  }

  lemma EntryGoesOn(f: bool, g: bool, r: Res<Pattern>, e: Entry, m: MapItems, k: Toks, end: Toks, all: Res<MapItems>)
    requires Comes(f, r, e.pattern, k) && At0(end, RBrc)
    requires if m == MapItems([], None) then g && k == end else At0(k, Comma) && Comes(g, MappingItems(Rest(k)), m, end)
    requires all ==
      if r.Err? then Err
      else if !At0(r.rest, Comma) then Ok(MapItems([Entry(e.key, r.v)], None), r.rest)
      else
        var m := MappingItems(r.rest.tl);
        if m.Err? then Err else Ok(MapItems([Entry(e.key, r.v)] + m.v.entries, m.v.rest), m.rest)
    ensures Comes(f && g, all, MapItems([e] + m.entries, m.rest), end)
  {
    hide MappingItems;
    assert [e] + [] == [e];
  }

  lemma NoEntries(rest: Option<string>, k: Toks)
    ensures Comes(RestFits(rest), MappingItems(PrintRest(rest, true, Cons(RBrc, k))), MapItems([], rest), Cons(RBrc, k))
  {
    hide ParseAs, ParseKey;
  }

  /** An entry, given how its pattern and the entries after it are read. */
  lemma EntriesStep(e: Entry, es: seq<Entry>, rest: Option<string>, end: Toks)
    requires At0(end, RBrc) && IsKey(e.key)
    requires var k := PrintEntries(es, false, PrintRest(rest, false, end));
             Comes(EntryFaithful(e), ParseAs(PrintPattern(e.pattern, k)), e.pattern, k)
    requires Comes(EntriesFaithful(es) && RestFits(rest),
               MappingItems(PrintEntries(es, true, PrintRest(rest, es == [], end))), MapItems(es, rest), end)
    ensures var all := [e] + es;
            Comes(EntriesFaithful(all) && RestFits(rest),
              MappingItems(PrintEntries(all, true, PrintRest(rest, false, end))), MapItems(all, rest), end)
  {
    hide Print, PrintPattern, PrintEntries, PrintRest, ParseKey, ParseAs, EntryFaithful, IsKey, MappingItems, Comes;
    var all := [e] + es;
    assert all[0] == e && all[1..] == es;
    var more := PrintRest(rest, false, end);
    var k := PrintEntries(es, false, more);
    var u := PrintPattern(e.pattern, k);
    var t := Print(e.key, P_TEST, Cons(Colon, u));
    EntriesRest(es, rest, end);
    EntriesPrinted(all, more);
    KeyBack(e.key, Cons(Colon, u));
    EntryStep(e.key, t, u);
    var g := EntriesFaithful(es) && RestFits(rest);
    EntryGoesOn(EntryFaithful(e), g, ParseAs(u), e, MapItems(es, rest), k, end, MappingItems(t));
  }

  lemma KeyOf(e: Entry)
    requires WfEntry(e)
    ensures IsKey(e.key)
  {
  }

  lemma EntriesEnd(es: seq<Entry>, rest: Option<string>, end: Toks)
    requires At0(end, RBrc)
    ensures !Extends(PrintEntries(es, false, PrintRest(rest, false, end)))
  {
    EntriesRest(es, rest, end);
  }

  lemma {:induction false} ReadEntries(es: seq<Entry>, rest: Option<string>, k: Toks)
    requires WfEntries(es)
    ensures Comes(EntriesFaithful(es) && RestFits(rest),
              MappingItems(PrintEntries(es, true, PrintRest(rest, es == [], Cons(RBrc, k)))), MapItems(es, rest),
                Cons(RBrc, k))
    decreases es, 0
  {
    hide Print, PrintPattern, ParseKey, ParseAs, EntryFaithful, EntriesFaithful, WfEntry, WfEntries, PrintEntries,
      PrintRest, MappingItems, RestFits, Comes;
    var end := Cons(RBrc, k);
    EntriesOf(es);
    if es == [] {
      EntriesPrinted([], PrintRest(rest, true, end));
      NoEntries(rest, k);
    } else {
      var e, more := es[0], es[1..];
      assert es == [e] + more;
      KeyOf(e);
      EntriesEnd(more, rest, end);
      ReadEntryPattern(e, PrintEntries(more, false, PrintRest(rest, false, end)));
      ReadEntries(more, rest, k);
      EntriesStep(e, more, rest, end);
    }
  }

  lemma KwRest(kws: seq<KwPattern>, k: Toks)
    ensures PrintKwPatterns(kws, false, k) == if kws == [] then k else Cons(Comma, PrintKwPatterns(kws, true, k))
  {
    hide PrintKwPattern;
  }

  lemma ReadEntryPattern(e: Entry, k: Toks)
    requires WfEntry(e) && !Extends(k)
    ensures Comes(EntryFaithful(e), ParseAs(PrintPattern(e.pattern, k)), e.pattern, k)
    decreases e
  {
    ReadAs(e.pattern, k);
  }

  lemma ReadKwPattern(kw: KwPattern, k: Toks)
    requires WfKwPattern(kw) && !Extends(k)
    ensures Comes(KwFaithful(kw), ParseAs(PrintPattern(kw.pattern, k)), kw.pattern, k)
    decreases kw
  {
    ReadAs(kw.pattern, k);
  }

  /** The loop over class arguments, one turn at a time. */
  lemma KwStep(seenKw: bool, w: string, t: Toks)
    ensures var r := ParseAs(t); var u := Cons(Nm(Ident(w)), Cons(Assign, t));
            ClassItems(seenKw, u) == if r.Err? then Err else ClassNext(true, ClassArgs([], [KwPattern(w, r.v)]), r.rest)
  {
    hide ParseAs, ClassNext;
  }

  lemma PositionalStep(t: Toks)
    requires !At0(t, RPar) && !(AtPlainName(t) && At0(Rest(t), Assign))
    ensures var r := ParseAs(t);
            ClassItems(false, t) == if r.Err? then Err else ClassNext(false, ClassArgs([r.v], []), r.rest)
  {
    hide ParseAs, ClassNext;
  }

  lemma NextStep(seenKw: bool, a: ClassArgs, t: Toks)
    ensures !At0(t, Comma) ==> ClassNext(seenKw, a, t) == Ok(a, t)
    ensures At0(t, Comma) ==>
      var r := ClassItems(seenKw, Rest(t));
      ClassNext(seenKw, a, t) == if r.Err? then Err
        else Ok(ClassArgs(a.positional + r.v.positional, a.keywords + r.v.keywords), r.rest)
  {
    hide ClassItems;
  }

  /** One argument and the ones after it. */
  lemma JoinArgs(seenKw: bool, g: bool, a: ClassArgs, b: ClassArgs, k: Toks, end: Toks)
    requires At0(end, RPar)
    requires if b == ClassArgs([], []) then g && k == end
             else At0(k, Comma) && Comes(g, ClassItems(seenKw, Rest(k)), b, end)
    ensures Comes(g, ClassNext(seenKw, a, k), ClassArgs(a.positional + b.positional, a.keywords + b.keywords), end)
  {
    hide ClassItems, ClassNext;
    NextStep(seenKw, a, k);
    if b == ClassArgs([], []) {
      assert a.positional + [] == a.positional && a.keywords + [] == a.keywords;
    }
  }

  lemma KwGoesOn(f: bool, g: bool, r: Res<Pattern>, kw: KwPattern, rest: seq<KwPattern>, k: Toks, end: Toks,
                 all: Res<ClassArgs>)
    requires Comes(f, r, kw.pattern, k)
    requires all == if r.Err? then Err else ClassNext(true, ClassArgs([], [KwPattern(kw.attr, r.v)]), r.rest)
    requires Comes(g, ClassNext(true, ClassArgs([], [kw]), k), ClassArgs([], [kw] + rest), end)
    ensures Comes(f && g, all, ClassArgs([], [kw] + rest), end)
  {
    hide ClassNext;
    if r.Ok? {
      NextStep(true, ClassArgs([], [KwPattern(kw.attr, r.v)]), r.rest);
    }
  }

  lemma PositionalGoesOn(f: bool, g: bool, r: Res<Pattern>, p: Pattern, b: ClassArgs, k: Toks, end: Toks,
                         all: Res<ClassArgs>)
    requires Comes(f, r, p, k)
    requires all == if r.Err? then Err else ClassNext(false, ClassArgs([r.v], []), r.rest)
    requires Comes(g, ClassNext(false, ClassArgs([p], []), k), b, end)
    ensures Comes(f && g, all, b, end)
  {
    hide ClassNext;
    if r.Ok? {
      NextStep(false, ClassArgs([r.v], []), r.rest);
    }
  }

  /** A keyword argument, given how it and the ones after it are read. */
  lemma KwsStep(seenKw: bool, kw: KwPattern, rest: seq<KwPattern>, end: Toks)
    requires At0(end, RPar)
    requires var k := PrintKwPatterns(rest, false, end); Comes(KwFaithful(kw), ParseAs(PrintPattern(kw.pattern, k)),
      kw.pattern, k)
    requires Comes(KwsFaithful(rest), ClassItems(true, PrintKwPatterns(rest, true, end)), ClassArgs([], rest), end)
    ensures var kws := [kw] + rest;
            Comes(KwsFaithful(kws), ClassItems(seenKw, PrintKwPatterns(kws, true, end)), ClassArgs([], kws), end)
  {
    hide PrintPattern, PrintKwPatterns, ParseAs, KwFaithful, ClassItems, ClassNext, Comes;
    var kws := [kw] + rest;
    assert kws[1..] == rest && kws[0] == kw;
    var k := PrintKwPatterns(rest, false, end);
    var t := PrintPattern(kw.pattern, k);
    KwRest(rest, end);
    KwPrinted(kws, end);
    KwStep(seenKw, kw.attr, t);
    NoneBefore(ClassArgs([], rest));
    JoinArgs(true, KwsFaithful(rest), ClassArgs([], [kw]), ClassArgs([], rest), k, end);
    KwGoesOn(KwFaithful(kw), KwsFaithful(rest), ParseAs(t), kw, rest, k, end,
      ClassItems(seenKw, PrintKwPatterns(kws, true, end)));
  }

  /** The keyword arguments of p from number j on. */
  lemma {:induction false} ReadKws(seenKw: bool, p: Pattern, j: nat, k: Toks)
    requires p.MatchClass? && j <= |p.keywords| && WfKwPatterns(p.keywords[j..])
    ensures var kws := p.keywords[j..];
            Comes(KwsFaithful(kws), ClassItems(seenKw, PrintKwPatterns(kws, true, Cons(RPar, k))), ClassArgs([], kws),
              Cons(RPar, k))
    decreases p, 0, 0, |p.keywords| - j
  {
    hide PrintPattern, PrintKwPatterns, ParseAs, KwFaithful, KwsFaithful, WfKwPattern, WfKwPatterns, ClassItems,
      ClassNext, Comes;
    var kws := p.keywords[j..];
    var end := Cons(RPar, k);
    KwsOf(kws);
    if j == |p.keywords| {
      NoKws(seenKw, k);
      assert kws == [];
    } else {
      assert kws == [p.keywords[j]] + p.keywords[j + 1..];
      assert kws[1..] == p.keywords[j + 1..];
      KwsEnd(p.keywords[j + 1..], end);
      ReadKwPattern(p.keywords[j], PrintKwPatterns(p.keywords[j + 1..], false, end));
      ReadKws(true, p, j + 1, k);
      KwsStep(seenKw, p.keywords[j], p.keywords[j + 1..], end);
    }
  }

  lemma KwsEnd(kws: seq<KwPattern>, end: Toks)
    requires At0(end, RPar)
    ensures !Extends(PrintKwPatterns(kws, false, end)) && !At0(PrintKwPatterns(kws, false, end), Assign)
  {
    KwRest(kws, end);
  }

  /** A positional argument, given how it and the ones after it are read. */
  lemma PositionalsStep(x: Pattern, rest: seq<Pattern>, kws: seq<KwPattern>, end: Toks)
    requires At0(end, RPar) && WfPattern(x)
    requires var k := PrintList(rest, false, PrintKwPatterns(kws, false, end)); Comes(Faithful(x),
      ParseAs(PrintPattern(x, k)), x, k)
    requires Comes(AllFaithful(rest) && KwsFaithful(kws),
               ClassItems(false, PrintList(rest, true, PrintKwPatterns(kws, rest == [], end))), ClassArgs(rest, kws),
                 end)
    ensures var ps := [x] + rest;
            Comes(AllFaithful(ps) && KwsFaithful(kws),
              ClassItems(false, PrintList(ps, true, PrintKwPatterns(kws, false, end))), ClassArgs(ps, kws), end)
  {
    hide PrintPattern, PrintList, PrintKwPatterns, ParseAs, Faithful, KwFaithful, WfPattern, ClassItems, ClassNext,
      Comes;
    var ps := [x] + rest;
    assert ps[1..] == rest && ps[0] == x;
    var more := PrintKwPatterns(kws, false, end);
    var k := PrintList(rest, false, more);
    var t := PrintPattern(x, k);
    KwRest(kws, end);
    ListRest(rest, more);
    ListPrinted(ps, more);
    ListPrinted(rest, PrintKwPatterns(kws, rest == [], end));
    Starts(x, k);
    PositionalStep(t);
    NoneBefore(ClassArgs([], kws));
    var g := AllFaithful(rest) && KwsFaithful(kws);
    JoinArgs(false, g, ClassArgs([x], []), ClassArgs(rest, kws), k, end);
    PositionalGoesOn(Faithful(x), g, ParseAs(t), x, ClassArgs(ps, kws), k, end, ClassItems(false, t));
  }

  lemma KwsOf(kws: seq<KwPattern>)
    requires WfKwPatterns(kws)
    ensures kws != [] ==> WfKwPattern(kws[0]) && WfKwPatterns(kws[1..])
    ensures KwsFaithful(kws) <==> kws == [] || (KwFaithful(kws[0]) && KwsFaithful(kws[1..]))
  {
  }

  lemma PatternsOf(ps: seq<Pattern>)
    requires WfPatterns(ps)
    ensures ps != [] ==> WfPattern(ps[0]) && WfPatterns(ps[1..])
    ensures AllFaithful(ps) <==> ps == [] || (Faithful(ps[0]) && AllFaithful(ps[1..]))
  {
  }

  lemma EntriesOf(es: seq<Entry>)
    requires WfEntries(es)
    ensures es != [] ==> WfEntry(es[0]) && WfEntries(es[1..])
    ensures EntriesFaithful(es) <==> es == [] || (EntryFaithful(es[0]) && EntriesFaithful(es[1..]))
  {
  }

  lemma ListPrinted(ps: seq<Pattern>, k: Toks)
    ensures PrintList(ps, true, k) == if ps == [] then k else PrintPattern(ps[0], PrintList(ps[1..], false, k))
  {
    hide PrintPattern;
  }

  lemma EntriesPrinted(es: seq<Entry>, k: Toks)
    ensures PrintEntries(es, true, k) ==
            if es == [] then k
            else Print(es[0].key, P_TEST, Cons(Colon, PrintPattern(es[0].pattern, PrintEntries(es[1..], false, k))))
  {
    hide Print, PrintPattern;
    if es != [] {
      var k' := PrintEntries(es[1..], false, k);
      assert PrintEntries(es, true, k) == PrintEntry(es[0], k');
    }
  }

  lemma KwPrinted(kws: seq<KwPattern>, k: Toks)
    requires kws != []
    ensures PrintKwPatterns(kws, true, k) ==
            Cons(Nm(Ident(kws[0].attr)),
              Cons(Assign, PrintPattern(kws[0].pattern, PrintKwPatterns(kws[1..], false, k))))
  {
    hide PrintPattern;
    var k' := PrintKwPatterns(kws[1..], false, k);
    assert PrintKwPatterns(kws, true, k) == PrintKwPattern(kws[0], k');
  }

  lemma NoKws(seenKw: bool, k: Toks)
    ensures PrintKwPatterns([], true, Cons(RPar, k)) == Cons(RPar, k)
    ensures ClassItems(seenKw, Cons(RPar, k)) == Ok(ClassArgs([], []), Cons(RPar, k))
    ensures Comes(true, ClassItems(seenKw, Cons(RPar, k)), ClassArgs([], []), Cons(RPar, k))
  {
  }

  lemma NoneBefore(a: ClassArgs)
    ensures [] + a.positional == a.positional && [] + a.keywords == a.keywords
  {
  }

  /** The arguments of p from positional number i on. */
  lemma {:induction false} ReadClassItems(p: Pattern, i: nat, k: Toks)
    requires p.MatchClass? && i <= |p.positional| && WfPatterns(p.positional[i..]) && WfKwPatterns(p.keywords)
    ensures var ps, kws := p.positional[i..], p.keywords;
            Comes(AllFaithful(ps) && KwsFaithful(kws),
              ClassItems(false, PrintList(ps, true, PrintKwPatterns(kws, ps == [], Cons(RPar, k)))),
                ClassArgs(ps, kws), Cons(RPar, k))
    decreases p, 0, 1, |p.positional| - i
  {
    hide PrintPattern, PrintList, PrintKwPatterns, ParseAs, Faithful, AllFaithful, KwsFaithful, WfPattern, WfPatterns,
      WfKwPatterns, ClassItems, ClassNext, Comes;
    var ps, kws := p.positional[i..], p.keywords;
    var end := Cons(RPar, k);
    PatternsOf(ps);
    if i == |p.positional| {
      assert kws[0..] == kws;
      ListPrinted(ps, PrintKwPatterns(kws, true, end));
      ReadKws(false, p, 0, k);
    } else {
      var x, rest := p.positional[i], p.positional[i + 1..];
      assert ps == [x] + rest && ps[1..] == rest;
      ListEnd(rest, kws, end);
      ReadAs(x, PrintList(rest, false, PrintKwPatterns(kws, false, end)));
      ReadClassItems(p, i + 1, k);
      PositionalsStep(x, rest, kws, end);
    }
  }

  lemma ListEnd(ps: seq<Pattern>, kws: seq<KwPattern>, end: Toks)
    requires At0(end, RPar)
    ensures !Extends(PrintList(ps, false, PrintKwPatterns(kws, false, end)))
  {
    ListRest(ps, PrintKwPatterns(kws, false, end));
    KwRest(kws, end);
  }

  // ----- the round trip -----

  /** The printed pattern of a case, followed by a colon or a guard, is read back as itself, with
      what follows left over, exactly when it is faithful. */
  lemma PatternRoundTripExactly(p: Pattern, k: Toks)
    requires WfPattern(p) && !Extends(k) && !At0(k, Comma)
    ensures ParsePatterns(PrintPattern(p, k)) == Ok(p, k) <==> Faithful(p)
    ensures !Faithful(p) ==> Stuck(ParsePatterns(PrintPattern(p, k)))
  {
    hide PrintPattern, ParseAs, Faithful;
    Starts(p, k);
    ReadAs(p, k);
  }

  /** Faithful patterns are told apart by what is printed for them. */
  lemma PatternsInjective(p: Pattern, q: Pattern)
    requires WfPattern(p) && WfPattern(q) && Faithful(p) && Faithful(q) && PrintPattern(p, End) == PrintPattern(q, End)
    ensures p == q
  {
    hide PrintPattern, Faithful;
    PatternRoundTripExactly(p, End);
    PatternRoundTripExactly(q, End);
  }

  /** A value whose dotted name begins with the wildcard is read as the wildcard alone, and a mapping
      that collects the rest as `match` is refused, though Python accepts both. */
  lemma NotRead(k: Toks)
    requires !Extends(k) && !At0(k, Comma)
    ensures var value := MatchValue(Attribute(Name(WILDCARD), "x"));
            var mapping := MatchMapping([], Some("match"));
            && WfPattern(value) && ParsePatterns(PrintPattern(value, k)) ==
              Ok(MatchAs(None, None), Cons(Dot, Cons(Nm(Ident("x")), k)))
            && WfPattern(mapping) && ParsePatterns(PrintPattern(mapping, k)).Err?
  {
    hide PrintPattern, ParseAs;
    var value := MatchValue(Attribute(Name(WILDCARD), "x"));
    var mapping := MatchMapping([], Some("match"));
    WildcardValue(k);
    RefusedMapping(k);
  }

  lemma WildcardValue(k: Toks)
    ensures var t := PrintPattern(MatchValue(Attribute(Name(WILDCARD), "x")), k);
            var u := Cons(Dot, Cons(Nm(Ident("x")), k));
            && t == Cons(Nm(Ident(WILDCARD)), u)
            && ParseMaybeStar(t) == ParseAs(t) == Ok(MatchAs(None, None), u)
  {
    hide ParseClosed, ParseAlternatives;
    var e := Attribute(Name(WILDCARD), "x");
    var u := Cons(Dot, Cons(Nm(Ident("x")), k));
    WildcardPrinted(k);
    NameStep(WILDCARD, u);
    OneAlternative(Cons(Nm(Ident(WILDCARD)), u));
  }

  lemma WildcardPrinted(k: Toks)
    ensures var e := Attribute(Name(WILDCARD), "x");
            PrintPattern(MatchValue(e), k) == Cons(Nm(Ident(WILDCARD)), Cons(Dot, Cons(Nm(Ident("x")), k)))
  {
    var e := Attribute(Name(WILDCARD), "x");
    var u := Cons(Dot, Cons(Nm(Ident("x")), k));
    assert PrintPattern(MatchValue(e), k) == Print(e, P_TEST, k) == Bare(e, k) == PrintAttrValue(Name(WILDCARD), u);
    assert PrintAttrValue(Name(WILDCARD), u) == Print(Name(WILDCARD), P_ATOM, u) == Cons(Nm(Ident(WILDCARD)), u);
  }

  lemma RefusedMapping(k: Toks)
    ensures var t := PrintPattern(MatchMapping([], Some("match")), k); ParseMaybeStar(t) == ParseAs(t) == Err
  {
    var u := Cons(DStar, Cons(Nm(Ident("match")), Cons(RBrc, k)));
    NoEntries(Some("match"), k);
    assert PrintPattern(MatchMapping([], Some("match")), k) == Cons(LBrc, u);
    assert MappingItems(u).Err?;
    assert ParseClosed(Cons(LBrc, u)) == ParseMapping(u) == Err;
    OneAlternative(Cons(LBrc, u));
  }
}
