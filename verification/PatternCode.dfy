/** The pattern printer and the pattern parser as they are written: the one appends to a buffer, the
    other advances over tokens.  Each procedure does what the function of the same name in the module
    Patterns says. */
module PatternCode {
  import opened Tokens
  import opened Ast
  import opened Unparse
  import G = Grammar
  import opened Patterns
  import opened PatternRoundTrip
  import opened PrinterState
  import opened ParserState

  // ----- the printer -----

  method WritePattern(p: Printer, x: Pattern, ghost k: Toks)
    modifies p`b
    ensures Stream(p.b, k) == Stream(old(p.b), PrintPattern(x, k))
    decreases x, 0
  {
    hide Print, PrintList, PrintEntries, PrintRest, PrintKwPatterns, PrintAlternatives, InParens, Stream;
    match x
    case MatchValue(e) => p.Expr(e, P_TEST, k);
    case MatchSingleton(c) => p.Write(ConstTok(c), k);
    case MatchSequence(ps) =>
      p.Write(LBrk, PrintList(ps, true, Cons(RBrk, k)));
      WriteList(p, ps, Cons(RBrk, k));
      p.Write(RBrk, k);
    case MatchMapping(es, rest) =>
      ghost var k' := PrintRest(rest, es == [], Cons(RBrc, k));
      p.Write(LBrc, PrintEntries(es, true, k'));
      WriteEntries(p, es, k');
      WriteRest(p, rest, es == [], Cons(RBrc, k));
      p.Write(RBrc, k);
    case MatchClass(cls, ps, kws) =>
      ghost var k' := PrintKwPatterns(kws, ps == [], Cons(RPar, k));
      p.Expr(cls, P_ATOM, Cons(LPar, PrintList(ps, true, k')));
      p.Write(LPar, PrintList(ps, true, k'));
      WriteList(p, ps, k');
      WriteKwPatterns(p, kws, ps == [], Cons(RPar, k));
      p.Write(RPar, k);
    case MatchStar(n) =>
      var name := if n.Some? then n.value else WILDCARD;
      p.Write(Star, Cons(Nm(Ident(name)), k));
      p.Write(Nm(Ident(name)), k);
    case MatchAs(None, None) => p.Write(Nm(Ident(WILDCARD)), k);
    case MatchAs(None, Some(n)) => p.Write(Nm(Ident(n)), k);
    case MatchAs(Some(q), n) =>
      ghost var k1 := if n.Some? then Cons(Nm(Ident(n.value)), k) else k;
      if q.MatchAs? {
        WriteInParens(p, q, Cons(Nm(KwAs), k1));
      } else {
        WritePattern(p, q, Cons(Nm(KwAs), k1));
      }
      p.Write(Nm(KwAs), k1);
      if n.Some? {
        p.Write(Nm(Ident(n.value)), k);
      }
    case MatchOr(ps) => WriteAlternatives(p, ps, k);
  }

  method WriteInParens(p: Printer, x: Pattern, ghost k: Toks)
    modifies p`b
    ensures Stream(p.b, k) == Stream(old(p.b), InParens(x, k))
    decreases x, 1
  {
    hide PrintPattern, Stream;
    p.Write(LPar, PrintPattern(x, Cons(RPar, k)));
    WritePattern(p, x, Cons(RPar, k));
    p.Write(RPar, k);
  }

  method WriteAlternatives(p: Printer, ps: seq<Pattern>, ghost k: Toks)
    modifies p`b
    ensures Stream(p.b, k) == Stream(old(p.b), PrintAlternatives(ps, true, k))
    decreases ps
  {
    hide PrintPattern, InParens, Stream;
    assert ps[0..] == ps;
    for i := 0 to |ps|
      invariant Stream(p.b, PrintAlternatives(ps[i..], i == 0, k)) == Stream(old(p.b), PrintAlternatives(ps, true, k))
    {
      ghost var rest := PrintAlternatives(ps[i + 1..], false, k);
      assert ps[i..][0] == ps[i] && ps[i..][1..] == ps[i + 1..];
      if i > 0 {
        p.Write(Pipe, PrintAlternative(ps[i], rest));
      }
      if ps[i].MatchAs? || ps[i].MatchOr? {
        WriteInParens(p, ps[i], rest);
      } else {
        WritePattern(p, ps[i], rest);
      }
    }
    assert ps[|ps|..] == [];
  }

  method WriteList(p: Printer, ps: seq<Pattern>, ghost k: Toks)
    modifies p`b
    ensures Stream(p.b, k) == Stream(old(p.b), PrintList(ps, true, k))
    decreases ps
  {
    hide PrintPattern, Stream;
    assert ps[0..] == ps;
    for i := 0 to |ps|
      invariant Stream(p.b, PrintList(ps[i..], i == 0, k)) == Stream(old(p.b), PrintList(ps, true, k))
    {
      ghost var rest := PrintList(ps[i + 1..], false, k);
      assert ps[i..][0] == ps[i] && ps[i..][1..] == ps[i + 1..];
      if i > 0 {
        p.Write(Comma, PrintPattern(ps[i], rest));
      }
      WritePattern(p, ps[i], rest);
    }
    assert ps[|ps|..] == [];
  }

  method WriteEntries(p: Printer, es: seq<Entry>, ghost k: Toks)
    modifies p`b
    ensures Stream(p.b, k) == Stream(old(p.b), PrintEntries(es, true, k))
    decreases es
  {
    hide Print, PrintPattern, Stream;
    assert es[0..] == es;
    for i := 0 to |es|
      invariant Stream(p.b, PrintEntries(es[i..], i == 0, k)) == Stream(old(p.b), PrintEntries(es, true, k))
    {
      ghost var rest := PrintEntries(es[i + 1..], false, k);
      assert es[i..][0] == es[i] && es[i..][1..] == es[i + 1..];
      if i > 0 {
        p.Write(Comma, PrintEntry(es[i], rest));
      }
      WriteEntry(p, es[i], rest);
    }
    assert es[|es|..] == [];
  }

  method WriteEntry(p: Printer, e: Entry, ghost k: Toks)
    modifies p`b
    ensures Stream(p.b, k) == Stream(old(p.b), PrintEntry(e, k))
    decreases e
  {
    hide Print, PrintPattern, Stream;
    p.Expr(e.key, P_TEST, Cons(Colon, PrintPattern(e.pattern, k)));
    p.Write(Colon, PrintPattern(e.pattern, k));
    WritePattern(p, e.pattern, k);
  }

  method WriteRest(p: Printer, rest: Option<string>, first: bool, ghost k: Toks)
    modifies p`b
    ensures Stream(p.b, k) == Stream(old(p.b), PrintRest(rest, first, k))
  {
    hide Stream;
    if rest.Some? {
      ghost var name := Cons(Nm(Ident(rest.value)), k);
      if !first {
        p.Write(Comma, Cons(DStar, name));
      }
      p.Write(DStar, name);
      p.Write(Nm(Ident(rest.value)), k);
    }
  }

  method WriteKwPatterns(p: Printer, kws: seq<KwPattern>, first: bool, ghost k: Toks)
    modifies p`b
    ensures Stream(p.b, k) == Stream(old(p.b), PrintKwPatterns(kws, first, k))
    decreases kws
  {
    hide PrintPattern, Stream;
    assert kws[0..] == kws;
    for i := 0 to |kws|
      invariant Stream(p.b, PrintKwPatterns(kws[i..], first && i == 0, k)) ==
        Stream(old(p.b), PrintKwPatterns(kws, first, k))
    {
      ghost var rest := PrintKwPatterns(kws[i + 1..], false, k);
      assert kws[i..][0] == kws[i] && kws[i..][1..] == kws[i + 1..];
      if !first || i > 0 {
        p.Write(Comma, PrintKwPattern(kws[i], rest));
      }
      WriteKwPattern(p, kws[i], rest);
    }
    assert kws[|kws|..] == [];
  }

  method WriteKwPattern(p: Printer, kw: KwPattern, ghost k: Toks)
    modifies p`b
    ensures Stream(p.b, k) == Stream(old(p.b), PrintKwPattern(kw, k))
    decreases kw
  {
    hide PrintPattern, Stream;
    p.Write(Nm(Ident(kw.attr)), Cons(Assign, PrintPattern(kw.pattern, k)));
    p.Write(Assign, PrintPattern(kw.pattern, k));
    WritePattern(p, kw.pattern, k);
  }

  // ----- the parser -----

  method CasePattern(p: Parser) returns (r: Option<Pattern>)
    requires p.Valid()
    modifies p
    ensures p.Valid() && Gives(ParsePatterns(old(p.Rem())), r, p.Rem())
  {
    hide ParseMaybeStar, OpenTail, Parser.Valid, Parser.Rem, Parser.Ahead;
    var first := MaybeStar(p);
    if first.None? {
      return None;
    }
    if !p.Looking(Comma) {
      return if first.value.MatchStar? then None else first;
    }
    var items := OpenItems(p);
    r := if items.None? then None else Some(MatchSequence([first.value] + items.value));
  }

  method OpenItems(p: Parser) returns (r: Option<seq<Pattern>>)
    requires p.Valid()
    modifies p
    ensures p.Valid() && Gives(OpenTail(old(p.Rem())), r, p.Rem())
  {
    hide ParseMaybeStar, Parser.Valid, Parser.Rem, Parser.Ahead;
    ghost var t0 := p.Rem();
    var items: seq<Pattern> := [];
    PrependNone(OpenTail(t0));
    while p.Looking(Comma)
      invariant p.Valid() && OpenTail(t0) == Prepend(items, OpenTail(p.Rem()))
      decreases Len(p.Rem())
    {
      ghost var t := p.Rem();
      p.Advance();
      if p.Looking(Colon) || p.IsKeyword(KwIf) {
        PrependEnd(items, p.Rem());
        return Some(items);
      }
      var next := MaybeStar(p);
      if next.None? {
        return None;
      }
      assert OpenTail(t) == Prepend([next.value], OpenTail(p.Rem()));
      PrependMore(items, next.value, OpenTail(p.Rem()));
      items := items + [next.value];
    }
    PrependEnd(items, p.Rem());
    r := Some(items);
  }

  method MaybeStar(p: Parser) returns (r: Option<Pattern>)
    requires p.Valid()
    modifies p
    ensures p.Valid() && Gives(ParseMaybeStar(old(p.Rem())), r, p.Rem())
    decreases Len(p.Rem()), 10
  {
    hide ParseAs, Parser.Valid, Parser.Rem, Parser.Ahead;
    if p.Looking(Star) {
      p.Advance();
      var cur := p.Current();
      if cur.None? || !cur.value.Nm? {
        return None;
      }
      var name := G.WordText(cur.value.w);
      p.Advance();
      return Some(MatchStar(if name == WILDCARD then None else Some(name)));
    }
    r := AsPattern(p);
  }

  method AsPattern(p: Parser) returns (r: Option<Pattern>)
    requires p.Valid()
    modifies p
    ensures p.Valid() && Gives(ParseAs(old(p.Rem())), r, p.Rem())
    decreases Len(p.Rem()), 9
  {
    hide ParseAlternatives, Parser.Valid, Parser.Rem, Parser.Ahead;
    var or := OrPattern(p);
    if or.None? || !p.IsKeyword(KwAs) {
      return or;
    }
    p.Advance();
    if !p.IsPlainName() {
      return None;
    }
    var name := p.Current().value.w.id;
    if name == WILDCARD {
      return None;
    }
    p.Advance();
    r := Some(MatchAs(or, Some(name)));
  }

  method OrPattern(p: Parser) returns (r: Option<Pattern>)
    requires p.Valid()
    modifies p
    ensures p.Valid() && Gives(ParseAlternatives(old(p.Rem())), r, p.Rem())
    decreases Len(p.Rem()), 8
  {
    hide ParseClosed, Parser.Valid, Parser.Rem, Parser.Ahead;
    var first := ClosedPattern(p);
    if first.None? || !p.Looking(Pipe) {
      return first;
    }
    ghost var t0 := p.Rem();
    var more: seq<Pattern> := [];
    PrependNone(AlternativesTail(t0));
    while p.Looking(Pipe)
      invariant p.Valid() && Len(p.Rem()) <= Len(t0)
      invariant AlternativesTail(t0) == Prepend(more, AlternativesTail(p.Rem()))
      decreases Len(p.Rem())
    {
      ghost var t := p.Rem();
      p.Advance();
      var next := ClosedPattern(p);
      if next.None? {
        return None;
      }
      assert AlternativesTail(t) == Prepend([next.value], AlternativesTail(p.Rem()));
      PrependMore(more, next.value, AlternativesTail(p.Rem()));
      more := more + [next.value];
    }
    PrependEnd(more, p.Rem());
    r := Some(MatchOr([first.value] + more));
  }

  method ClosedPattern(p: Parser) returns (r: Option<Pattern>)
    requires p.Valid()
    modifies p
    ensures p.Valid() && Gives(ParseClosed(old(p.Rem())), r, p.Rem())
    decreases Len(p.Rem()), 6
  {
    hide ParseLiteral, BracketItems, ParseGroup, ParseMapping, ParseNameStarted, Parser.Valid, Parser.Rem,
      Parser.Ahead;
    var cur := p.Current();
    if cur.None? {
      return None;
    }
    if AtLiteral(cur.value) {
      var e := Literal(p);
      return if e.None? then None else Some(MatchValue(e.value));
    }
    match cur.value {
      case LBrk =>
        p.Advance();
        r := SequenceBrackets(p);
      case LPar =>
        p.Advance();
        r := GroupOrSequence(p);
      case LBrc =>
        p.Advance();
        r := Mapping(p);
      case Nm(KwNone) =>
        p.Advance();
        r := Some(MatchSingleton(CNone));
      case Nm(KwTrue) =>
        p.Advance();
        r := Some(MatchSingleton(CTrue));
      case Nm(KwFalse) =>
        p.Advance();
        r := Some(MatchSingleton(CFalse));
      case Nm(w) =>
        p.Advance();
        if w == Ident(WILDCARD) {
          return Some(MatchAs(None, None));
        }
        r := NameStarted(p, w);
      case _ => r := None;
    }
  }

  predicate AtLiteral(x: Tok) {
    x.IntLit? || x.FloatLit? || x.StrLit? || x == Plus || x == Minus
  }

  method Literal(p: Parser) returns (r: Option<Expr>)
    requires p.Valid()
    modifies p
    ensures p.Valid() && Gives(ParseLiteral(old(p.Rem())), r, p.Rem())
  {
    hide ParseSigned, ParseNumber, G.StringTail, Parser.Valid, Parser.Rem, Parser.Ahead;
    if p.Current().Some? && p.Current().value.StrLit? {
      r := p.ParseStringAtom();
      return;
    }
    var num := Signed(p);
    if num.None? {
      return None;
    }
    if p.Looking(Plus) || p.Looking(Minus) {
      var op := if p.Looking(Minus) then Sub else Add;
      p.Advance();
      var imag := Number(p);
      return if imag.None? then None else Some(BinOp(op, num.value, imag.value));
    }
    r := num;
  }

  method Signed(p: Parser) returns (r: Option<Expr>)
    requires p.Valid()
    modifies p
    ensures p.Valid() && Gives(ParseSigned(old(p.Rem())), r, p.Rem())
  {
    hide ParseNumber, Parser.Valid, Parser.Rem, Parser.Ahead;
    if p.Looking(Plus) || p.Looking(Minus) {
      var neg := p.Looking(Minus);
      p.Advance();
      var num := Number(p);
      return if num.None? then None else Some(UnaryOp(if neg then USub else UAdd, num.value));
    }
    r := Number(p);
  }

  method Number(p: Parser) returns (r: Option<Expr>)
    requires p.Valid()
    modifies p
    ensures p.Valid() && Gives(ParseNumber(old(p.Rem())), r, p.Rem())
  {
    var cur := p.Current();
    if cur.Some? && cur.value.IntLit? {
      p.Advance();
      return Some(Constant(CInt(cur.value.digits)));
    }
    if cur.Some? && cur.value.FloatLit? {
      p.Advance();
      return Some(Constant(CFloat(cur.value.text)));
    }
    r := None;
  }

  method NameStarted(p: Parser, w: Word) returns (r: Option<Pattern>)
    requires p.Valid()
    modifies p
    ensures p.Valid() && Gives(ParseNameStarted(w, old(p.Rem())), r, p.Rem())
    decreases Len(p.Rem()), 5
  {
    hide Dotted, ParseClassArgs, G.WordText, Parser.Valid, Parser.Rem, Parser.Ahead;
    var name := G.WordText(w);
    if !p.Looking(Dot) {
      if p.Looking(LPar) {
        p.Advance();
        r := ClassArguments(p, Name(name));
        return;
      }
      if IsReserved(w) && w != Ident("match") && w != Ident("case") {
        return None;
      }
      return Some(MatchAs(None, Some(name)));
    }
    var value := DottedName(p, Name(name));
    if value.None? {
      return None;
    }
    if p.Looking(LPar) {
      p.Advance();
      r := ClassArguments(p, value.value);
      return;
    }
    r := Some(MatchValue(value.value));
  }

  method DottedName(p: Parser, base: Expr) returns (r: Option<Expr>)
    requires p.Valid()
    modifies p
    ensures p.Valid() && Gives(Dotted(base, old(p.Rem())), r, p.Rem())
  {
    hide G.ParseAttrName, Parser.Valid, Parser.Rem, Parser.Ahead;
    var value := base;
    ghost var t0 := p.Rem();
    while p.Looking(Dot)
      invariant p.Valid() && Dotted(base, t0) == Dotted(value, p.Rem())
      decreases Len(p.Rem())
    {
      p.Advance();
      var attr := p.AttrName();
      if attr.None? {
        return None;
      }
      value := Attribute(value, attr.value);
    }
    r := Some(value);
  }

  /** Arguments read so far, put before the ones to come. */
  function Joined(a: ClassArgs, g: G.Res<ClassArgs>): G.Res<ClassArgs> {
    if g.Err? then G.Err else G.Ok(ClassArgs(a.positional + g.v.positional, a.keywords + g.v.keywords), g.rest)
  }

  lemma JoinedTwo(a: ClassArgs, b: ClassArgs, g: G.Res<ClassArgs>)
    ensures Joined(a, Joined(b, g)) == Joined(ClassArgs(a.positional + b.positional, a.keywords + b.keywords), g)
  {
    if g.Ok? {
      assert a.positional + (b.positional + g.v.positional) == (a.positional + b.positional) + g.v.positional;
      assert a.keywords + (b.keywords + g.v.keywords) == (a.keywords + b.keywords) + g.v.keywords;
    }
  }

  lemma JoinedEnds(a: ClassArgs, g: G.Res<ClassArgs>, t: Toks)
    ensures Joined(ClassArgs([], []), g) == g
    ensures Joined(a, G.Ok(ClassArgs([], []), t)) == G.Ok(a, t)
    ensures Joined(a, G.Err) == G.Err
  {
    if g.Ok? {
      NoneBefore(g.v);
    }
    assert a.positional + [] == a.positional && a.keywords + [] == a.keywords;
  }

  lemma JoinedLast(a: ClassArgs, b: ClassArgs, t: Toks)
    ensures Joined(a, G.Ok(b, t)) == G.Ok(ClassArgs(a.positional + b.positional, a.keywords + b.keywords), t)
  {
  }

  lemma NextJoined(seenKw: bool, a: ClassArgs, t: Toks)
    ensures ClassNext(seenKw, a, t) == if At0(t, Comma) then Joined(a, ClassItems(seenKw, Rest(t))) else G.Ok(a, t)
  {
    hide ClassItems;
  }

  /** One turn of the loop over class arguments. */
  lemma ClassTurn(seenKw: bool, t: Toks)
    ensures At0(t, RPar) ==> ClassItems(seenKw, t) == G.Ok(ClassArgs([], []), t)
    ensures !At0(t, RPar) && AtPlainName(t) && At0(Rest(t), Assign) ==>
      var r := ParseAs(Rest(Rest(t)));
      ClassItems(seenKw, t) == if r.Err? then G.Err
        else ClassNext(true, ClassArgs([], [KwPattern(t.hd.w.id, r.v)]), r.rest)
    ensures !At0(t, RPar) && !(AtPlainName(t) && At0(Rest(t), Assign)) ==>
      var r := ParseAs(t);
      ClassItems(seenKw, t) == if seenKw || r.Err? then G.Err else ClassNext(false, ClassArgs([r.v], []), r.rest)
  {
    hide ParseAs, ClassNext;
  }

  method ClassArguments(p: Parser, cls: Expr) returns (r: Option<Pattern>)
    requires p.Valid()
    modifies p
    ensures p.Valid() && Gives(ParseClassArgs(cls, old(p.Rem())), r, p.Rem())
    decreases Len(p.Rem()), 12
  {
    hide ClassItems, Parser.Valid, Parser.Rem, Parser.Ahead;
    var args := ClassLoop(p);
    if args.None? {
      return None;
    }
    var ok := p.Expect(RPar);
    r := if ok then Some(MatchClass(cls, args.value.positional, args.value.keywords)) else None;
  }

  method ClassLoop(p: Parser) returns (r: Option<ClassArgs>)
    requires p.Valid()
    modifies p
    ensures p.Valid() && Gives(ClassItems(false, old(p.Rem())), r, p.Rem())
    decreases Len(p.Rem()), 11
  {
    hide ClassItems, ClassNext, ParseAs, Joined, Parser.Valid, Parser.Rem, Parser.Ahead;
    ghost var t0 := p.Rem();
    var positional: seq<Pattern> := [];
    var keywords: seq<KwPattern> := [];
    var seenKw := false;
    JoinedEnds(ClassArgs([], []), ClassItems(false, t0), t0);
    while !p.Looking(RPar)
      invariant p.Valid() && Len(p.Rem()) <= Len(t0)
      invariant ClassItems(false, t0) == Joined(ClassArgs(positional, keywords), ClassItems(seenKw, p.Rem()))
      decreases Len(p.Rem())
    {
      ghost var t := p.Rem();
      ghost var before := ClassArgs(positional, keywords);
      ClassTurn(seenKw, t);
      JoinedEnds(before, G.Err, t);
      var item := ClassItem(p, seenKw);
      if item.None? {
        return None;
      }
      if item.value.keywords != [] {
        seenKw := true;
      }
      positional := positional + item.value.positional;
      keywords := keywords + item.value.keywords;
      NextJoined(seenKw, item.value, p.Rem());
      if !p.Looking(Comma) {
        JoinedLast(before, item.value, p.Rem());
        return Some(ClassArgs(positional, keywords));
      }
      JoinedTwo(before, item.value, ClassItems(seenKw, p.Rem().tl));
      p.Advance();
    }
    ClassTurn(seenKw, p.Rem());
    JoinedEnds(ClassArgs(positional, keywords), ClassItems(seenKw, p.Rem()), p.Rem());
    r := Some(ClassArgs(positional, keywords));
  }

  /** One class argument, with or without a keyword. */
  method ClassItem(p: Parser, seenKw: bool) returns (r: Option<ClassArgs>)
    requires p.Valid() && !At0(p.Rem(), RPar)
    modifies p
    ensures p.Valid()
    ensures r.Some? ==> Len(p.Rem()) < Len(old(p.Rem()))
    ensures r.Some? && seenKw ==> r.value.keywords != []
    ensures r.Some? ==> |r.value.positional| + |r.value.keywords| == 1
    ensures ClassItems(seenKw, old(p.Rem())) ==
            if r.None? then G.Err else ClassNext(r.value.keywords != [], r.value, p.Rem())
    decreases Len(p.Rem()), 10
  {
    hide ClassItems, ClassNext, ParseAs, Parser.Valid, Parser.Rem, Parser.Ahead;
    ghost var t := p.Rem();
    ClassTurn(seenKw, t);
    var keyword := p.NameThen(Assign);
    if keyword {
      var name := p.Current().value.w.id;
      p.Advance();
      p.Advance();
      assert Len(t) == 2 + Len(p.Rem());
      var val := AsPattern(p);
      return if val.None? then None else Some(ClassArgs([], [KwPattern(name, val.value)]));
    }
    if seenKw {
      return None;
    }
    var pat := AsPattern(p);
    r := if pat.None? then None else Some(ClassArgs([pat.value], []));
  }

  method SequenceBrackets(p: Parser) returns (r: Option<Pattern>)
    requires p.Valid()
    modifies p
    ensures p.Valid()
    ensures var g := BracketItems(old(p.Rem()));
            var e := if g.Err? then G.Err else G.Expect(g.rest, RBrk);
            if e.Err? then r.None? else r == Some(MatchSequence(g.v)) && p.Rem() == e.rest
    decreases Len(p.Rem()), 12
  {
    hide ParseMaybeStar, Parser.Valid, Parser.Rem, Parser.Ahead;
    ghost var t0 := p.Rem();
    var items: seq<Pattern> := [];
    PrependNone(BracketItems(t0));
    while !p.Looking(RBrk)
      invariant p.Valid() && Len(p.Rem()) <= Len(t0)
      invariant BracketItems(t0) == Prepend(items, BracketItems(p.Rem()))
      decreases Len(p.Rem())
    {
      ghost var t := p.Rem();
      var item := MaybeStar(p);
      if item.None? {
        return None;
      }
      if !p.Looking(Comma) {
        assert BracketItems(t) == G.Ok([item.value], p.Rem());
        items := items + [item.value];
        assert BracketItems(t0) == G.Ok(items, p.Rem());
        var ok := p.Expect(RBrk);
        return if ok then Some(MatchSequence(items)) else None;
      }
      p.Advance();
      assert BracketItems(t) == Prepend([item.value], BracketItems(p.Rem()));
      PrependMore(items, item.value, BracketItems(p.Rem()));
      items := items + [item.value];
    }
    PrependEnd(items, p.Rem());
    var ok := p.Expect(RBrk);
    r := if ok then Some(MatchSequence(items)) else None;
  }

  method GroupOrSequence(p: Parser) returns (r: Option<Pattern>)
    requires p.Valid()
    modifies p
    ensures p.Valid() && Gives(ParseGroup(old(p.Rem())), r, p.Rem())
    decreases Len(p.Rem()), 11
  {
    hide ParseMaybeStar, GroupTail, Parser.Valid, Parser.Rem, Parser.Ahead;
    if p.Looking(RPar) {
      p.Advance();
      return Some(MatchSequence([]));
    }
    var first := MaybeStar(p);
    if first.None? {
      return None;
    }
    if p.Looking(RPar) {
      p.Advance();
      return if first.value.MatchStar? then Some(MatchSequence([first.value])) else first;
    }
    var more := GroupItems(p);
    if more.None? {
      return None;
    }
    var ok := p.Expect(RPar);
    r := if ok then Some(MatchSequence([first.value] + more.value)) else None;
  }

  method GroupItems(p: Parser) returns (r: Option<seq<Pattern>>)
    requires p.Valid()
    modifies p
    ensures p.Valid() && Gives(GroupTail(old(p.Rem())), r, p.Rem())
    decreases Len(p.Rem()), 11
  {
    hide ParseMaybeStar, Parser.Valid, Parser.Rem, Parser.Ahead;
    ghost var t0 := p.Rem();
    var items: seq<Pattern> := [];
    PrependNone(GroupTail(t0));
    while p.Looking(Comma)
      invariant p.Valid() && Len(p.Rem()) <= Len(t0)
      invariant GroupTail(t0) == Prepend(items, GroupTail(p.Rem()))
      decreases Len(p.Rem())
    {
      ghost var t := p.Rem();
      p.Advance();
      if p.Looking(RPar) {
        PrependEnd(items, p.Rem());
        return Some(items);
      }
      var next := MaybeStar(p);
      if next.None? {
        return None;
      }
      assert GroupTail(t) == Prepend([next.value], GroupTail(p.Rem()));
      PrependMore(items, next.value, GroupTail(p.Rem()));
      items := items + [next.value];
    }
    PrependEnd(items, p.Rem());
    r := Some(items);
  }

  method Mapping(p: Parser) returns (r: Option<Pattern>)
    requires p.Valid()
    modifies p
    ensures p.Valid() && Gives(ParseMapping(old(p.Rem())), r, p.Rem())
    decreases Len(p.Rem()), 12
  {
    hide MappingItems, Parser.Valid, Parser.Rem, Parser.Ahead;
    var m := MappingLoop(p);
    if m.None? {
      return None;
    }
    var ok := p.Expect(RBrc);
    r := if ok then Some(MatchMapping(m.value.entries, m.value.rest)) else None;
  }

  /** Entries read so far, put before the ones to come. */
  function Entered(es: seq<Entry>, g: G.Res<MapItems>): G.Res<MapItems> {
    if g.Err? then G.Err else G.Ok(MapItems(es + g.v.entries, g.v.rest), g.rest)
  }

  lemma EnteredMore(es: seq<Entry>, e: Entry, g: G.Res<MapItems>)
    ensures Entered(es, Entered([e], g)) == Entered(es + [e], g)
  {
    if g.Ok? {
      assert es + ([e] + g.v.entries) == (es + [e]) + g.v.entries;
    }
  }

  lemma EnteredEnds(es: seq<Entry>, rest: Option<string>, g: G.Res<MapItems>, t: Toks)
    ensures Entered([], g) == g
    ensures Entered(es, G.Ok(MapItems([], rest), t)) == G.Ok(MapItems(es, rest), t)
    ensures Entered(es, G.Err) == G.Err
  {
    if g.Ok? {
      assert [] + g.v.entries == g.v.entries;
    }
    assert es + [] == es;
  }

  lemma EnteredLast(es: seq<Entry>, e: Entry, t: Toks)
    ensures Entered(es, G.Ok(MapItems([e], None), t)) == G.Ok(MapItems(es + [e], None), t)
  {
  }

  /** One turn of the loop over the entries of a mapping. */
  lemma MappingTurn(t: Toks)
    ensures At0(t, RBrc) ==> MappingItems(t) == G.Ok(MapItems([], None), t)
    ensures !At0(t, RBrc) && !At0(t, DStar) ==>
      var e := EntryAt(t);
      MappingItems(t) ==
        if e.Err? then G.Err
        else if At0(e.rest, Comma) then Entered([e.v], MappingItems(e.rest.tl))
        else G.Ok(MapItems([e.v], None), e.rest)
  {
    hide ParseKey, ParseAs;
  }

  function EntryAt(t: Toks): (r: G.Res<Entry>)
    ensures r.Ok? ==> Len(r.rest) < Len(t)
  {
    var (key, r1) :- ParseKey(t);
    var (_, r2) :- G.Expect(r1, Colon);
    var (q, r3) :- ParseAs(r2);
    G.Ok(Entry(key, q), r3)
  }

  method MappingLoop(p: Parser) returns (r: Option<MapItems>)
    requires p.Valid()
    modifies p
    ensures p.Valid() && Gives(MappingItems(old(p.Rem())), r, p.Rem())
    decreases Len(p.Rem()), 11
  {
    hide MappingItems, EntryAt, Entered, Parser.Valid, Parser.Rem, Parser.Ahead;
    ghost var t0 := p.Rem();
    var entries: seq<Entry> := [];
    EnteredEnds([], None, MappingItems(t0), t0);
    while !p.Looking(RBrc)
      invariant p.Valid() && Len(p.Rem()) <= Len(t0)
      invariant MappingItems(t0) == Entered(entries, MappingItems(p.Rem()))
      decreases Len(p.Rem())
    {
      ghost var t := p.Rem();
      MappingTurn(t);
      if p.Looking(DStar) {
        var rest := RestName(p);
        if rest.None? {
          EnteredEnds(entries, None, G.Err, t);
          return None;
        }
        EnteredEnds(entries, rest, MappingItems(t), p.Rem());
        return Some(MapItems(entries, rest));
      }
      var e := MappingEntry(p);
      if e.None? {
        EnteredEnds(entries, None, G.Err, t);
        return None;
      }
      if !p.Looking(Comma) {
        EnteredLast(entries, e.value, p.Rem());
        return Some(MapItems(entries + [e.value], None));
      }
      EnteredMore(entries, e.value, MappingItems(p.Rem().tl));
      p.Advance();
      entries := entries + [e.value];
    }
    MappingTurn(p.Rem());
    EnteredEnds(entries, None, MappingItems(p.Rem()), p.Rem());
    r := Some(MapItems(entries, None));
  }

  /** `**name`, and a comma if there is one. */
  method RestName(p: Parser) returns (r: Option<string>)
    requires p.Valid() && At0(p.Rem(), DStar)
    modifies p
    ensures p.Valid()
    ensures var g := MappingItems(old(p.Rem()));
            if g.Err? then r.None? else r.Some? && g == G.Ok(MapItems([], r), p.Rem())
  {
    hide ParseKey, ParseAs, Parser.Valid, Parser.Rem, Parser.Ahead;
    p.Advance();
    var cur := p.Current();
    if cur.None? || !cur.value.Nm? || IsReserved(cur.value.w) {
      return None;
    }
    r := Some(G.WordText(cur.value.w));
    p.Advance();
    if p.Looking(Comma) {
      p.Advance();
    }
  }

  method MappingEntry(p: Parser) returns (r: Option<Entry>)
    requires p.Valid()
    modifies p
    ensures p.Valid() && Gives(EntryAt(old(p.Rem())), r, p.Rem())
    decreases Len(p.Rem()), 10
  {
    hide ParseKey, ParseAs, Parser.Valid, Parser.Rem, Parser.Ahead;
    var key := MappingKey(p);
    if key.None? {
      return None;
    }
    var ok := p.Expect(Colon);
    if !ok {
      return None;
    }
    var val := AsPattern(p);
    r := if val.None? then None else Some(Entry(key.value, val.value));
  }

  method MappingKey(p: Parser) returns (r: Option<Expr>)
    requires p.Valid()
    modifies p
    ensures p.Valid() && Gives(ParseKey(old(p.Rem())), r, p.Rem())
  {
    hide ParseLiteral, Dotted, G.WordText, Parser.Valid, Parser.Rem, Parser.Ahead;
    var cur := p.Current();
    if cur.None? {
      return None;
    }
    if AtLiteral(cur.value) {
      r := Literal(p);
      return;
    }
    match cur.value {
      case Nm(KwNone) =>
        p.Advance();
        r := Some(Constant(CNone));
      case Nm(KwTrue) =>
        p.Advance();
        r := Some(Constant(CTrue));
      case Nm(KwFalse) =>
        p.Advance();
        r := Some(Constant(CFalse));
      case Nm(w) =>
        p.Advance();
        r := DottedName(p, Name(G.WordText(w)));
      case _ => r := None;
    }
  }

  /** A pattern printed and parsed again. */
  method PrintAndParse(x: Pattern) returns (r: Option<Pattern>)
    requires WfPattern(x)
    ensures r == Some(x) <==> Faithful(x)
  {
    hide PrintPattern, ParsePatterns, Faithful, WfPattern, Stream, Parser.Valid, Parser.Rem, Parser.Ahead;
    StreamNil(PrintPattern(x, Cons(Colon, End)));
    var printer := new Printer();
    WritePattern(printer, x, Cons(Colon, End));
    printer.Write(Colon, End);
    var parser := new Parser(Stream(printer.b, End));
    r := CasePattern(parser);
    if r.Some? && !parser.Looking(Colon) {
      r := None;
    }
    PatternRoundTripExactly(x, Cons(Colon, End));
  }
}
