/** The v2 statement parser as it is written: procedures that advance the expression parser's
    state.  Each returns what the grammar function of the same name gives for the tokens that
    were left, and leaves what that function leaves. */
module StmtParserState {
  import opened Tokens
  import opened Ast
  import G = Grammar
  import SG = StmtGrammar
  import opened ParserState
  import Layout
  import StmtScanner

  // ----- lines -----

  method ParseModule(p: Parser) returns (r: Option<seq<Stmt>>)
    requires p.Valid()
    modifies p
    ensures r == SG.ParseModule(old(p.Rem()))
  {
    hide SG.ParseLine;
    ghost var t0 := p.Rem();
    var body: seq<Stmt> := [];
    PrependNone(SG.ModuleTail(t0));
    while p.Current().Some?
      invariant p.Valid()
      invariant SG.ModuleTail(t0) == Prepend(body, SG.ModuleTail(p.Rem()))
      decreases Len(p.Rem())
    {
      ghost var t := p.Rem();
      if p.Looking(Newline) {
        p.Advance();
        assert SG.ModuleTail(t) == SG.ModuleTail(p.Rem());
      } else {
        var ss := ParseLine(p);
        if ss.None? {
          return None;
        }
        assert SG.ModuleTail(t) == Prepend(ss.value, SG.ModuleTail(p.Rem()));
        PrependTwo(body, ss.value, SG.ModuleTail(p.Rem()));
        body := body + ss.value;
      }
    }
    PrependEnd(body, End);
    r := Some(body);
  }

  lemma PrependTwo<T>(xs: seq<T>, ys: seq<T>, g: G.Res<seq<T>>)
    ensures Prepend(xs, Prepend(ys, g)) == Prepend(xs + ys, g)
  {
    if g.Ok? {
      assert xs + (ys + g.v) == (xs + ys) + g.v;
    }
  }

  method ParseLine(p: Parser) returns (r: Option<seq<Stmt>>)
    requires p.Valid()
    modifies p
    ensures p.Valid() && Gives(SG.ParseLine(old(p.Rem())), r, p.Rem())
    decreases Len(p.Rem()), 10
  {
    hide SG.ParseCompound, SG.ParseSimpleList, SG.MatchStart, SG.TypeStart, Parser.Valid, Parser.Rem, Parser.Ahead;
    var compound := IsCompound(p);
    if p.Looking(At) || compound {
      var s := ParseCompound(p);
      return if s.None? then None else Some([s.value]);
    }
    var soft := LooksLikeMatch(p);
    if !soft {
      soft := LooksLikeTypeAlias(p);
    }
    if soft {
      return None;
    }
    r := ParseSimpleList(p);
  }

  method IsCompound(p: Parser) returns (b: bool)
    requires p.Valid()
    ensures b == SG.CompoundStart(p.Rem())
  {
    hide Parser.Valid, Parser.Rem, Parser.Ahead;
    b := p.IsKeyword(KwIf) || p.IsKeyword(KwWhile) || p.IsKeyword(KwFor) || p.IsKeyword(KwTry) ||
       p.IsKeyword(Reserved("with"))
      || p.IsKeyword(KwDef) || p.IsKeyword(KwClass) || p.IsKeyword(KwAsync);
  }

  method LooksLikeTypeAlias(p: Parser) returns (b: bool)
    requires p.Valid()
    modifies p
    ensures p.Valid() && p.Rem() == old(p.Rem())
    ensures b == SG.TypeStart(p.Rem())
  {
    if !p.IsKeyword(Ident("type")) {
      return false;
    }
    var nxt := p.PeekTok();
    b := nxt.Some? && nxt.value.Nm? && nxt.value.w.Ident? && nxt.value.w.id != "match" && nxt.value.w.id != "case";
  }

  method LooksLikeMatch(p: Parser) returns (b: bool)
    requires p.Valid()
    modifies p
    ensures p.Valid() && p.Rem() == old(p.Rem())
    ensures b == SG.MatchStart(p.Rem())
  {
    hide SG.ColonAfter;
    if !p.IsKeyword(Ident("match")) {
      return false;
    }
    var nxt := p.PeekTok();
    if nxt.None? {
      return false;
    }
    match nxt.value {
      case IntLit(_) => return true;
      case FloatLit(_) => return true;
      case StrLit(_, _) => return true;
      case Dots => return true;
      case LBrc => return true;
      case Minus => return true;
      case Plus => return true;
      case Tilde => return true;
      case Star => return true;
      case LPar => b := ParenFollowedByColon(p.sc);
      case LBrk => b := ParenFollowedByColon(p.sc);
      case Nm(w) =>
        b := w.Ident? || w.KwNot? || w.KwLambda? || w.KwAwait? || w.KwYield? || w.KwNone? || w.KwTrue? || w.KwFalse?;
      case _ => return false;
    }
  }

  /** Skips past the bracket that closes the one before `src`, and looks for a colon. */
  method ParenFollowedByColon(src: Toks) returns (b: bool)
    ensures b == SG.ColonAfter(src, 1)
  {
    var t := src;
    var depth := 1;
    while t.Cons?
      invariant depth > 0 && SG.ColonAfter(src, 1) == SG.ColonAfter(t, depth)
      decreases t
    {
      if t.hd.LPar? || t.hd.LBrk? || t.hd.LBrc? {
        depth := depth + 1;
      } else if t.hd.RPar? || t.hd.RBrk? || t.hd.RBrc? {
        depth := depth - 1;
        if depth == 0 {
          return t.tl.Cons? && t.tl.hd == Colon;
        }
      }
      t := t.tl;
    }
    b := false;
  }

  method ParseSimpleList(p: Parser) returns (r: Option<seq<Stmt>>)
    requires p.Valid()
    modifies p
    ensures p.Valid() && Gives(SG.ParseSimpleList(old(p.Rem())), r, p.Rem())
    decreases Len(p.Rem()), 8
  {
    hide SG.ParseSimple, SG.TypeStart, SG.ParseSimpleList, Parser.Valid, Parser.Rem, Parser.Ahead;
    ghost var t0 := p.Rem();
    var stmts: seq<Stmt> := [];
    PrependNone(SG.ParseSimpleList(t0));
    while true
      invariant p.Valid()
      invariant SG.ParseSimpleList(t0) == Prepend(stmts, SG.ParseSimpleList(p.Rem()))
      decreases Len(p.Rem())
    {
      ghost var t := p.Rem();
      SimpleTurn(t);
      var alias := LooksLikeTypeAlias(p);
      if alias {
        return None;
      }
      var s := ParseSimple(p);
      if s.None? {
        return None;
      }
      ghost var u := p.Rem();
      if p.Looking(Semi) {
        p.Advance();
        if p.Current().Some? && !p.Looking(Newline) {
          PrependMore(stmts, s.value, SG.ParseSimpleList(p.Rem()));
          stmts := stmts + [s.value];
          continue;
        }
      }
      stmts := stmts + [s.value];
      break;
    }
    if p.Looking(Newline) {
      p.Advance();
    } else if p.Current().Some? && !p.Looking(Dedent) {
      return None;
    }
    r := Some(stmts);
  }

  /** One turn of the loop over the simple statements of a line. */
  lemma SimpleTurn(t: Toks)
    ensures SG.ParseSimpleList(t) ==
      if SG.TypeStart(t) || SG.ParseSimple(t).Err? then G.Err
      else
        var s, u := SG.ParseSimple(t).v, SG.ParseSimple(t).rest;
        if At0(u, Semi) && !Rest(u).End? && !At0(Rest(u), Newline) then Prepend([s], SG.ParseSimpleList(Rest(u)))
        else SG.LineEnd([s], if At0(u, Semi) then Rest(u) else u)
  {
    hide SG.TypeStart, SG.ParseSimple;
  }

  // ----- simple statements -----

  method ParseSimple(p: Parser) returns (r: Option<Stmt>)
    requires p.Valid()
    modifies p
    ensures p.Valid() && Gives(SG.ParseSimple(old(p.Rem())), r, p.Rem())
  {
    hide SG.ParseReturn, SG.ParseLed, SG.ParseExprStmt, Parser.Valid, Parser.Rem, Parser.Ahead;
    if p.IsKeyword(KwPass) {
      p.Advance();
      return Some(Pass);
    }
    if p.IsKeyword(KwBreak) {
      p.Advance();
      return Some(Break);
    }
    if p.IsKeyword(KwContinue) {
      p.Advance();
      return Some(Continue);
    }
    if p.IsKeyword(KwReturn) {
      r := ParseReturn(p);
      return;
    }
    if p.IsKeyword(KwFrom) || p.IsKeyword(Reserved("raise")) || p.IsKeyword(Reserved("import"))
      || p.IsKeyword(Reserved("global")) || p.IsKeyword(Reserved("nonlocal")) || p.IsKeyword(Reserved("del"))
      || p.IsKeyword(Reserved("assert")) {
      r := ParseLed(p);
      return;
    }
    r := ParseExprStmt(p);
  }

  method ParseReturn(p: Parser) returns (r: Option<Stmt>)
    requires p.Valid() && IsKw(p.Rem(), KwReturn)
    modifies p
    ensures p.Valid() && Gives(SG.ParseReturn(old(p.Rem())), r, p.Rem())
  {
    hide G.ParseTestlist, Parser.Valid, Parser.Rem, Parser.Ahead;
    p.Advance();
    if p.Current().None? || p.Looking(Semi) || p.Looking(Newline) || p.Looking(Dedent) {
      return Some(Return(None));
    }
    var v := p.ParseTestlist();
    r := if v.None? then None else Some(Return(v));
  }

  method ParseLed(p: Parser) returns (r: Option<Stmt>)
    requires p.Valid() && SG.LedStart(p.Rem())
    modifies p
    ensures p.Valid() && Gives(SG.ParseLed(old(p.Rem())), r, p.Rem())
  {
    hide SG.ParseFrom, SG.ParseRaise, SG.ImportList, SG.DelList, SG.IdList, SG.ParseAfter, SG.ValidTargets,
      G.ParseExpr, Parser.Valid, Parser.Rem, Parser.Ahead;
    if p.IsKeyword(KwFrom) {
      p.Advance();
      r := ParseFromImport(p);
    } else if p.IsKeyword(Reserved("raise")) {
      p.Advance();
      r := ParseRaise(p);
    } else if p.IsKeyword(Reserved("import")) {
      p.Advance();
      var names := ParseImportList(p);
      r := if names.None? then None else Some(Import(names.value));
    } else if p.IsKeyword(Reserved("del")) {
      p.Advance();
      var targets := ParseDelList(p);
      r := if targets.None? || !SG.ValidTargets(targets.value) then None else Some(Del(targets.value));
    } else if p.IsKeyword(Reserved("assert")) {
      p.Advance();
      r := ParseAssert(p);
    } else {
      var global := p.IsKeyword(Reserved("global"));
      p.Advance();
      var ids := ParseIds(p);
      r := if ids.None? then None else Some(Declare(global, ids.value));
    }
  }

  method ParseRaise(p: Parser) returns (r: Option<Stmt>)
    requires p.Valid()
    modifies p
    ensures p.Valid() && Gives(SG.ParseRaise(old(p.Rem())), r, p.Rem())
  {
    hide G.ParseExpr, SG.ParseAfter, Parser.Valid, Parser.Rem, Parser.Ahead;
    if p.Current().None? || p.Looking(Semi) || p.Looking(Newline) || p.Looking(Dedent) {
      return Some(Raise(None, None));
    }
    var exc := p.ParseExpr();
    if exc.None? {
      return None;
    }
    var cause := ParseAfter(p, Nm(KwFrom));
    r := if cause.None? then None else Some(Raise(exc, cause.value));
  }

  method ParseAssert(p: Parser) returns (r: Option<Stmt>)
    requires p.Valid()
    modifies p
    ensures p.Valid()
    ensures var e := G.ParseExpr(old(p.Rem()));
            if e.Err? then r.None?
            else var m := SG.ParseAfter(Comma, e.rest);
                 if m.Err? then r.None? else r == Some(Assert(e.v, m.v)) && p.Rem() == m.rest
  {
    hide G.ParseExpr, SG.ParseAfter, Parser.Valid, Parser.Rem, Parser.Ahead;
    var check := p.ParseExpr();
    if check.None? {
      return None;
    }
    var msg := ParseAfter(p, Comma);
    r := if msg.None? then None else Some(Assert(check.value, msg.value));
  }

  /** An expression after a word or a comma, when there is one. */
  method ParseAfter(p: Parser, x: Tok) returns (r: Option<Option<Expr>>)
    requires p.Valid()
    modifies p
    ensures p.Valid() && Gives(SG.ParseAfter(x, old(p.Rem())), r, p.Rem())
  {
    hide G.ParseExpr, Parser.Valid, Parser.Rem, Parser.Ahead;
    if !p.Looking(x) {
      return Some(None);
    }
    p.Advance();
    var e := p.ParseExpr();
    r := if e.None? then None else Some(e);
  }

  method ParseDelList(p: Parser) returns (r: Option<seq<Expr>>)
    requires p.Valid()
    modifies p
    ensures p.Valid() && Gives(SG.DelList(old(p.Rem())), r, p.Rem())
  {
    hide G.ParseExpr, Parser.Valid, Parser.Rem, Parser.Ahead;
    ghost var t0 := p.Rem();
    var targets := [];
    PrependNone(SG.DelList(t0));
    while true
      invariant p.Valid() && SG.DelList(t0) == Prepend(targets, SG.DelList(p.Rem()))
      decreases Len(p.Rem())
    {
      ghost var t := p.Rem();
      var e := p.ParseExpr();
      if e.None? {
        return None;
      }
      var comma := p.Looking(Comma);
      if comma {
        p.Advance();
      }
      if !comma || p.Current().None? || p.Looking(Semi) || p.Looking(Newline) || p.Looking(Dedent) {
        assert SG.DelList(t) == G.Ok([e.value], p.Rem());
        PrependLast(targets, e.value, p.Rem());
        return Some(targets + [e.value]);
      }
      assert SG.DelList(t) == Prepend([e.value], SG.DelList(p.Rem()));
      PrependMore(targets, e.value, SG.DelList(p.Rem()));
      targets := targets + [e.value];
    }
  }

  lemma PrependLast<T>(xs: seq<T>, x: T, t: Toks)
    ensures Prepend(xs, G.Ok([x], t)) == G.Ok(xs + [x], t)
  {
  }

  method ParseIds(p: Parser) returns (r: Option<seq<string>>)
    requires p.Valid()
    modifies p
    ensures p.Valid() && Gives(SG.IdList(old(p.Rem())), r, p.Rem())
  {
    hide G.ParseAttrName, Parser.Valid, Parser.Rem, Parser.Ahead;
    ghost var t0 := p.Rem();
    var ids := [];
    PrependNone(SG.IdList(t0));
    while true
      invariant p.Valid() && SG.IdList(t0) == Prepend(ids, SG.IdList(p.Rem()))
      decreases Len(p.Rem())
    {
      ghost var t := p.Rem();
      var n := p.AttrName();
      if n.None? {
        return None;
      }
      if !p.Looking(Comma) {
        assert SG.IdList(t) == G.Ok([n.value], p.Rem());
        PrependLast(ids, n.value, p.Rem());
        return Some(ids + [n.value]);
      }
      p.Advance();
      assert SG.IdList(t) == Prepend([n.value], SG.IdList(p.Rem()));
      PrependMore(ids, n.value, SG.IdList(p.Rem()));
      ids := ids + [n.value];
    }
  }

  /** parseDottedName. */
  method ParsePath(p: Parser) returns (r: Option<seq<string>>)
    requires p.Valid()
    modifies p
    ensures p.Valid() && Gives(SG.ParsePath(old(p.Rem())), r, p.Rem())
  {
    hide G.ParseAttrName, Parser.Valid, Parser.Rem, Parser.Ahead;
    ghost var t0 := p.Rem();
    var parts := [];
    PrependNone(SG.ParsePath(t0));
    while true
      invariant p.Valid() && SG.ParsePath(t0) == Prepend(parts, SG.ParsePath(p.Rem()))
      decreases Len(p.Rem())
    {
      ghost var t := p.Rem();
      var n := p.AttrName();
      if n.None? {
        return None;
      }
      if !p.Looking(Dot) {
        assert SG.ParsePath(t) == G.Ok([n.value], p.Rem());
        PrependLast(parts, n.value, p.Rem());
        return Some(parts + [n.value]);
      }
      p.Advance();
      assert SG.ParsePath(t) == Prepend([n.value], SG.ParsePath(p.Rem()));
      PrependMore(parts, n.value, SG.ParsePath(p.Rem()));
      parts := parts + [n.value];
    }
  }

  method ParseAsName(p: Parser) returns (r: Option<Option<string>>)
    requires p.Valid()
    modifies p
    ensures p.Valid() && Gives(SG.ParseAsName(old(p.Rem())), r, p.Rem())
  {
    hide G.ParseAttrName, Parser.Valid, Parser.Rem, Parser.Ahead;
    if !p.IsKeyword(KwAs) {
      return Some(None);
    }
    p.Advance();
    var n := p.AttrName();
    r := if n.None? then None else Some(n);
  }

  method ParseImportList(p: Parser) returns (r: Option<seq<Alias>>)
    requires p.Valid()
    modifies p
    ensures p.Valid() && Gives(SG.ImportList(old(p.Rem())), r, p.Rem())
  {
    hide SG.ParsePath, SG.ParseAsName, Parser.Valid, Parser.Rem, Parser.Ahead;
    ghost var t0 := p.Rem();
    var names := [];
    PrependNone(SG.ImportList(t0));
    while true
      invariant p.Valid() && SG.ImportList(t0) == Prepend(names, SG.ImportList(p.Rem()))
      decreases Len(p.Rem())
    {
      ghost var t := p.Rem();
      var path := ParsePath(p);
      if path.None? {
        return None;
      }
      var asname := ParseAsName(p);
      if asname.None? {
        return None;
      }
      var a := Alias(path.value, asname.value);
      if !p.Looking(Comma) {
        assert SG.ImportList(t) == G.Ok([a], p.Rem());
        PrependLast(names, a, p.Rem());
        return Some(names + [a]);
      }
      p.Advance();
      assert SG.ImportList(t) == Prepend([a], SG.ImportList(p.Rem()));
      PrependMore(names, a, SG.ImportList(p.Rem()));
      names := names + [a];
    }
  }

  method ParseFromList(p: Parser, parens: bool) returns (r: Option<seq<Alias>>)
    requires p.Valid()
    modifies p
    ensures p.Valid() && Gives(SG.FromList(parens, old(p.Rem())), r, p.Rem())
  {
    hide G.ParseAttrName, SG.ParseAsName, Parser.Valid, Parser.Rem, Parser.Ahead;
    ghost var t0 := p.Rem();
    var names := [];
    PrependNone(SG.FromList(parens, t0));
    while true
      invariant p.Valid() && SG.FromList(parens, t0) == Prepend(names, SG.FromList(parens, p.Rem()))
      decreases Len(p.Rem())
    {
      ghost var t := p.Rem();
      var name := p.AttrName();
      if name.None? {
        return None;
      }
      var asname := ParseAsName(p);
      if asname.None? {
        return None;
      }
      var a := Alias([name.value], asname.value);
      var comma := p.Looking(Comma);
      if comma {
        p.Advance();
      }
      if !comma || (parens && p.Looking(RPar)) {
        assert SG.FromList(parens, t) == G.Ok([a], p.Rem());
        PrependLast(names, a, p.Rem());
        return Some(names + [a]);
      }
      assert SG.FromList(parens, t) == Prepend([a], SG.FromList(parens, p.Rem()));
      PrependMore(names, a, SG.FromList(parens, p.Rem()));
      names := names + [a];
    }
  }

  method ParseFromImport(p: Parser) returns (r: Option<Stmt>)
    requires p.Valid()
    modifies p
    ensures p.Valid() && Gives(SG.ParseFrom(old(p.Rem())), r, p.Rem())
  {
    hide SG.ParsePath, SG.FromList, SG.DotLevel, Parser.Valid, Parser.Rem, Parser.Ahead, Len;
    var level := ParseLevel(p);
    var source: seq<string> := [];
    if p.Current().Some? && p.Current().value.Nm? && p.Current().value.w.Ident? {
      var path := ParsePath(p);
      if path.None? {
        return None;
      }
      source := path.value;
    }
    var ok := p.Expect(Nm(Reserved("import")));
    if !ok {
      return None;
    }
    if p.Looking(Star) {
      p.Advance();
      return Some(ImportFrom(level, source, [Alias(["*"], None)]));
    }
    var parens := p.Looking(LPar);
    if parens {
      p.Advance();
    }
    var names := ParseFromList(p, parens);
    if names.None? {
      return None;
    }
    if parens {
      var closed := p.Expect(RPar);
      if !closed {
        return None;
      }
    }
    r := Some(ImportFrom(level, source, names.value));
  }

  /** The loop over the dots of a relative import. */
  method ParseLevel(p: Parser) returns (level: nat)
    requires p.Valid()
    modifies p
    ensures p.Valid() && (level, p.Rem()) == SG.DotLevel(old(p.Rem()))
  {
    hide Parser.Valid, Parser.Rem, Parser.Ahead;
    ghost var t0 := p.Rem();
    level := 0;
    while p.Looking(Dot) || p.Looking(Dots)
      invariant p.Valid()
      invariant SG.DotLevel(t0) == (level + SG.DotLevel(p.Rem()).0, SG.DotLevel(p.Rem()).1)
      decreases Len(p.Rem())
    {
      level := if p.Looking(Dot) then level + 1 else level + 3;
      p.Advance();
    }
  }

  method ParseExprStmt(p: Parser) returns (r: Option<Stmt>)
    requires p.Valid()
    modifies p
    ensures p.Valid() && Gives(SG.ParseExprStmt(old(p.Rem())), r, p.Rem())
  {
    hide G.ParseTestlist, SG.ParseAnnotation, SG.ParseAugmented, SG.AssignTail, SG.AssignOf, Parser.Valid, Parser.Rem,
      Parser.Ahead;
    var lhs := p.ParseTestlist();
    if lhs.None? {
      return None;
    }
    if p.Looking(Colon) {
      r := Annotation(p, lhs.value);
      return;
    }
    if p.Current().Some? && p.Current().value.AugAssign? {
      r := Augmented(p, lhs.value);
      return;
    }
    if p.Looking(Assign) {
      r := Assignment(p, lhs.value);
      return;
    }
    r := Some(ExprStmt(lhs.value));
  }

  method Annotation(p: Parser, lhs: Expr) returns (r: Option<Stmt>)
    requires p.Valid() && At0(p.Rem(), Colon)
    modifies p
    ensures p.Valid() && Gives(SG.ParseAnnotation(lhs, old(p.Rem())), r, p.Rem())
  {
    hide G.ParseTestlist, G.ParseExpr, Parser.Valid, Parser.Rem, Parser.Ahead;
    p.Advance();
    var ann := p.ParseExpr();
    if ann.None? {
      return None;
    }
    ghost var u := p.Rem();
    var init: Option<Expr> := None;
    if p.Looking(Assign) {
      p.Advance();
      init := p.ParseTestlist();
      if init.None? {
        assert SG.ParseInit(u).Err?;
        return None;
      }
    }
    assert SG.ParseInit(u) == G.Ok(init, p.Rem());
    if !SG.ValidTarget(lhs) {
      return None;
    }
    r := Some(AnnStmt(lhs, ann.value, init, lhs.Name?));
  }

  method Augmented(p: Parser, lhs: Expr) returns (r: Option<Stmt>)
    requires p.Valid() && p.Rem().Cons? && p.Rem().hd.AugAssign?
    modifies p
    ensures p.Valid() && Gives(SG.ParseAugmented(lhs, old(p.Rem())), r, p.Rem())
  {
    hide G.ParseTestlist, SG.ValidTarget, SG.AugOp, Parser.Valid, Parser.Rem, Parser.Ahead;
    var op := SG.AugOp(p.Current().value.sym);
    p.Advance();
    var v := p.ParseTestlist();
    if v.None? || op.None? || !SG.ValidTarget(lhs) {
      return None;
    }
    r := Some(AugStmt(lhs, op.value, v.value));
  }

  /** A chain of `=`: the last expression is the value. */
  method Assignment(p: Parser, lhs: Expr) returns (r: Option<Stmt>)
    requires p.Valid() && At0(p.Rem(), Assign)
    modifies p
    ensures p.Valid()
    ensures var g := SG.AssignTail(old(p.Rem()));
            if g.Err? then r.None? else Gives(SG.AssignOf([lhs] + g.v, g.rest), r, p.Rem())
  {
    hide G.ParseTestlist, SG.ValidTargets, Parser.Valid, Parser.Rem, Parser.Ahead;
    ghost var t0 := p.Rem();
    var targets, value := [], lhs;
    ghost var vs: seq<Expr> := [];
    PrependNone(SG.AssignTail(t0));
    while p.Looking(Assign)
      invariant p.Valid()
      invariant SG.AssignTail(t0) == Prepend(vs, SG.AssignTail(p.Rem()))
      invariant targets + [value] == [lhs] + vs
      invariant vs == [] ==> At0(p.Rem(), Assign)
      decreases Len(p.Rem())
    {
      ghost var t := p.Rem();
      p.Advance();
      var rhs := p.ParseTestlist();
      if rhs.None? {
        return None;
      }
      assert SG.AssignTail(t) == Prepend([rhs.value], SG.AssignTail(p.Rem()));
      PrependMore(vs, rhs.value, SG.AssignTail(p.Rem()));
      assert (targets + [value]) + [rhs.value] == [lhs] + (vs + [rhs.value]);
      targets, value := targets + [value], rhs.value;
      vs := vs + [rhs.value];
    }
    PrependEnd(vs, p.Rem());
    assert ([lhs] + vs)[..|vs|] == targets;
    if !SG.ValidTargets(targets) {
      return None;
    }
    r := Some(AssignStmt(targets, value));
  }

  // ----- blocks -----

  method ParseBlock(p: Parser) returns (r: Option<seq<Stmt>>)
    requires p.Valid()
    modifies p
    ensures p.Valid() && Gives(SG.ParseBlock(old(p.Rem())), r, p.Rem())
    decreases Len(p.Rem()), 9
  {
    hide SG.BlockTail, SG.ParseLine, SG.ParseSimpleList, Parser.Valid, Parser.Rem, Parser.Ahead;
    var ok := p.Expect(Colon);
    if !ok {
      return None;
    }
    ghost var t1 := p.Rem();
    assert Len(t1) < Len(old(p.Rem()));
    if !p.Looking(Newline) {
      r := ParseSimpleList(p);
      return;
    }
    p.Advance();
    if !p.Looking(Indent) {
      return None;
    }
    p.Advance();
    ghost var t0 := p.Rem();
    assert t0 == t1.tl.tl && Len(t1) == 1 + Len(t1.tl) && Len(t1.tl) == 1 + Len(t0);
    var stmts: seq<Stmt> := [];
    PrependNone(SG.BlockTail(t0));
    while p.Current().Some? && !p.Looking(Dedent)
      invariant p.Valid() && Len(p.Rem()) <= Len(t0)
      invariant SG.BlockTail(t0) == Prepend(stmts, SG.BlockTail(p.Rem()))
      decreases Len(p.Rem())
    {
      ghost var t := p.Rem();
      BlockTurn(t);
      if p.Looking(Newline) {
        p.Advance();
      } else {
        var ss := ParseLine(p);
        if ss.None? {
          return None;
        }
        PrependTwo(stmts, ss.value, SG.BlockTail(p.Rem()));
        stmts := stmts + ss.value;
      }
    }
    BlockTurn(p.Rem());
    PrependEnd(stmts, p.Rem());
    if p.Looking(Dedent) {
      p.Advance();
    }
    r := Some(stmts);
  }

  /** One turn of the loop over the lines of a block. */
  lemma BlockTurn(t: Toks)
    ensures SG.BlockTail(t) ==
      if t.End? || t.hd.Dedent? then G.Ok([], t)
      else if t.hd.Newline? then SG.BlockTail(Rest(t))
      else if SG.ParseLine(t).Err? then G.Err
      else Prepend(SG.ParseLine(t).v, SG.BlockTail(SG.ParseLine(t).rest))
    ensures SG.ParseLine(t).Ok? ==> Len(SG.ParseLine(t).rest) < Len(t)
  {
    hide SG.ParseLine;
  }

  method ParseElse(p: Parser) returns (r: Option<seq<Stmt>>)
    requires p.Valid()
    modifies p
    ensures p.Valid() && Gives(SG.ParseElse(old(p.Rem())), r, p.Rem())
    decreases Len(p.Rem()), 7
  {
    hide SG.ParseBlock, Parser.Valid, Parser.Rem, Parser.Ahead;
    if !p.IsKeyword(KwElse) {
      return Some([]);
    }
    p.Advance();
    r := ParseBlock(p);
  }

  method ParseFinally(p: Parser) returns (r: Option<seq<Stmt>>)
    requires p.Valid()
    modifies p
    ensures p.Valid() && Gives(SG.ParseFinally(old(p.Rem())), r, p.Rem())
    decreases Len(p.Rem()), 7
  {
    hide SG.ParseBlock, Parser.Valid, Parser.Rem, Parser.Ahead;
    if !p.IsKeyword(KwFinally) {
      return Some([]);
    }
    p.Advance();
    r := ParseBlock(p);
  }

  // ----- compound statements -----

  method ParseCompound(p: Parser) returns (r: Option<Stmt>)
    requires p.Valid() && (At0(p.Rem(), At) || SG.CompoundStart(p.Rem()))
    modifies p
    ensures p.Valid() && Gives(SG.ParseCompound(old(p.Rem())), r, p.Rem())
    decreases Len(p.Rem()), 9
  {
    hide SG.DecoratorTail, SG.ParseDecorated, SG.ParseIf, SG.ParseWhile, SG.ParseFor, SG.ParseTry,
      SG.ParseFunctionDef, SG.ParseClassDef, SG.ParseAsync, Parser.Valid, Parser.Rem, Parser.Ahead;
    if p.Looking(At) {
      r := ParseDecorated(p);
    } else if p.IsKeyword(KwIf) {
      r := ParseIf(p);
    } else if p.IsKeyword(KwWhile) {
      r := ParseWhile(p);
    } else if p.IsKeyword(KwFor) {
      r := ParseFor(p, false);
    } else if p.IsKeyword(KwTry) {
      r := ParseTry(p);
    } else if p.IsKeyword(KwDef) {
      r := ParseFunctionDef(p, [], false);
    } else if p.IsKeyword(KwClass) {
      r := ParseClassDef(p, []);
    } else if p.IsKeyword(KwAsync) {
      r := ParseAsync(p);
    } else {
      r := None;
    }
  }

  method ParseAsync(p: Parser) returns (r: Option<Stmt>)
    requires p.Valid() && IsKw(p.Rem(), KwAsync)
    modifies p
    ensures p.Valid() && Gives(SG.ParseAsync(old(p.Rem())), r, p.Rem())
    decreases Len(p.Rem()), 7
  {
    hide SG.ParseFor, SG.ParseFunctionDef, Parser.Valid, Parser.Rem, Parser.Ahead;
    p.Advance();
    if p.IsKeyword(KwDef) {
      r := ParseFunctionDef(p, [], true);
    } else if p.IsKeyword(KwFor) {
      r := ParseFor(p, true);
    } else {
      r := None;
    }
  }

  method ParseDecorated(p: Parser) returns (r: Option<Stmt>)
    requires p.Valid() && At0(p.Rem(), At)
    modifies p
    ensures p.Valid()
    ensures var g := SG.DecoratorTail(old(p.Rem()));
            if g.Err? then r.None? else Gives(SG.ParseDecorated(g.v, g.rest), r, p.Rem())
    decreases Len(p.Rem()), 8
  {
    hide G.ParseExpr, SG.ParseDecorated, SG.ParseFunctionDef, SG.ParseClassDef, Parser.Valid, Parser.Rem,
      Parser.Ahead;
    ghost var t0 := p.Rem();
    var ds: seq<Expr> := [];
    PrependNone(SG.DecoratorTail(t0));
    while p.Looking(At)
      invariant p.Valid() && Len(p.Rem()) <= Len(t0)
      invariant SG.DecoratorTail(t0) == Prepend(ds, SG.DecoratorTail(p.Rem()))
      invariant ds != [] ==> Len(p.Rem()) < Len(t0)
      invariant ds == [] ==> p.Rem() == t0
      decreases Len(p.Rem())
    {
      ghost var t := p.Rem();
      p.Advance();
      var d := p.ParseExpr();
      if d.None? || !p.Looking(Newline) {
        return None;
      }
      p.Advance();
      assert SG.DecoratorTail(t) == Prepend([d.value], SG.DecoratorTail(p.Rem()));
      PrependMore(ds, d.value, SG.DecoratorTail(p.Rem()));
      ds := ds + [d.value];
    }
    PrependEnd(ds, p.Rem());
    r := Definition(p, ds);
  }

  /** The definition after its decorators. */
  method Definition(p: Parser, ds: seq<Expr>) returns (r: Option<Stmt>)
    requires p.Valid()
    modifies p
    ensures p.Valid() && Gives(SG.ParseDecorated(ds, old(p.Rem())), r, p.Rem())
    decreases Len(p.Rem()), 8
  {
    hide SG.ParseFunctionDef, SG.ParseClassDef, Parser.Valid, Parser.Rem, Parser.Ahead;
    if p.IsKeyword(KwDef) {
      r := ParseFunctionDef(p, ds, false);
    } else if p.IsKeyword(KwAsync) {
      p.Advance();
      if !p.IsKeyword(KwDef) {
        return None;
      }
      r := ParseFunctionDef(p, ds, true);
    } else if p.IsKeyword(KwClass) {
      r := ParseClassDef(p, ds);
    } else {
      r := None;
    }
  }

  method ParseIf(p: Parser) returns (r: Option<Stmt>)
    requires p.Valid() && p.Rem().Cons?
    modifies p
    ensures p.Valid() && Gives(SG.ParseIf(old(p.Rem())), r, p.Rem())
    decreases Len(p.Rem()), 6
  {
    hide G.ParseExpr, SG.ParseBlock, SG.ParseElse, Parser.Valid, Parser.Rem, Parser.Ahead;
    p.Advance();
    var test := p.ParseExpr();
    if test.None? {
      return None;
    }
    var body := ParseBlock(p);
    if body.None? {
      return None;
    }
    if p.IsKeyword(KwElif) {
      var nested := ParseIf(p);
      return if nested.None? then None else Some(If(test.value, body.value, [nested.value]));
    }
    var orelse := ParseElse(p);
    r := if orelse.None? then None else Some(If(test.value, body.value, orelse.value));
  }

  method ParseWhile(p: Parser) returns (r: Option<Stmt>)
    requires p.Valid() && p.Rem().Cons?
    modifies p
    ensures p.Valid() && Gives(SG.ParseWhile(old(p.Rem())), r, p.Rem())
    decreases Len(p.Rem()), 6
  {
    hide G.ParseExpr, SG.ParseBlock, SG.ParseElse, Parser.Valid, Parser.Rem, Parser.Ahead;
    p.Advance();
    var test := p.ParseExpr();
    if test.None? {
      return None;
    }
    var body := ParseBlock(p);
    if body.None? {
      return None;
    }
    var orelse := ParseElse(p);
    r := if orelse.None? then None else Some(While(test.value, body.value, orelse.value));
  }

  method ParseFor(p: Parser, isAsync: bool) returns (r: Option<Stmt>)
    requires p.Valid() && p.Rem().Cons?
    modifies p
    ensures p.Valid() && Gives(SG.ParseFor(isAsync, old(p.Rem())), r, p.Rem())
    decreases Len(p.Rem()), 6
  {
    hide G.ParseTargetList, G.ParseTestlist, SG.ParseBlock, SG.ParseElse, Parser.Valid, Parser.Rem, Parser.Ahead;
    p.Advance();
    var target := p.ParseTargetList();
    if target.None? || !p.IsKeyword(KwIn) {
      return None;
    }
    p.Advance();
    var iter := p.ParseTestlist();
    if iter.None? {
      return None;
    }
    var body := ParseBlock(p);
    if body.None? {
      return None;
    }
    var orelse := ParseElse(p);
    r := if orelse.None? then None else Some(For(isAsync, target.value, iter.value, body.value, orelse.value));
  }

  method ParseTry(p: Parser) returns (r: Option<Stmt>)
    requires p.Valid() && p.Rem().Cons?
    modifies p
    ensures p.Valid() && Gives(SG.ParseTry(old(p.Rem())), r, p.Rem())
    decreases Len(p.Rem()), 6
  {
    hide SG.ParseBlock, SG.HandlerTail, SG.ParseElse, SG.ParseFinally, Parser.Valid, Parser.Rem, Parser.Ahead;
    p.Advance();
    var body := ParseBlock(p);
    if body.None? {
      return None;
    }
    var hs := Handlers(p);
    if hs.None? {
      return None;
    }
    var orelse := ParseElse(p);
    if orelse.None? {
      return None;
    }
    var final := ParseFinally(p);
    if final.None? || (hs.value.handlers == [] && final.value == []) {
      return None;
    }
    r := Some(Try(hs.value.star, body.value, hs.value.handlers, orelse.value, final.value));
  }

  /** The handlers collected so far, put before those that g gives. */
  function After(star: bool, hs: seq<Handler>, g: G.Res<SG.Handlers>): G.Res<SG.Handlers> {
    if g.Err? then G.Err else G.Ok(SG.Handlers(star || g.v.star, hs + g.v.handlers), g.rest)
  }

  lemma AfterMore(s1: bool, hs: seq<Handler>, s2: bool, h: Handler, g: G.Res<SG.Handlers>)
    ensures After(s1, hs, After(s2, [h], g)) == After(s1 || s2, hs + [h], g)
    ensures After(false, [], g) == g
    ensures forall t :: After(s1, hs, G.Ok(SG.Handlers(false, []), t)) == G.Ok(SG.Handlers(s1, hs), t)
  {
    assert hs + [] == hs;
    if g.Ok? {
      assert hs + ([h] + g.v.handlers) == (hs + [h]) + g.v.handlers;
      assert [] + g.v.handlers == g.v.handlers;
    }
  }

  lemma HandlerTurn(t: Toks)
    ensures SG.HandlerTail(t) ==
      if !IsKw(t, KwExcept) then G.Ok(SG.Handlers(false, []), t)
      else
        var star := At0(Rest(t), Star);
        var h := SG.ParseHandler(if star then Rest(Rest(t)) else Rest(t));
        if h.Err? then G.Err else After(star, [h.v], SG.HandlerTail(h.rest))
  {
    hide SG.ParseHandler;
  }

  method Handlers(p: Parser) returns (r: Option<SG.Handlers>)
    requires p.Valid()
    modifies p
    ensures p.Valid() && Gives(SG.HandlerTail(old(p.Rem())), r, p.Rem())
    decreases Len(p.Rem()), 8
  {
    hide SG.ParseHandler, SG.HandlerTail, After, Parser.Valid, Parser.Rem, Parser.Ahead;
    ghost var t0 := p.Rem();
    var isTryStar := false;
    var handlers: seq<Handler> := [];
    AfterMore(false, [], false, Handler(None, None, []), SG.HandlerTail(t0));
    while p.IsKeyword(KwExcept)
      invariant p.Valid() && Len(p.Rem()) <= Len(t0)
      invariant SG.HandlerTail(t0) == After(isTryStar, handlers, SG.HandlerTail(p.Rem()))
      decreases Len(p.Rem())
    {
      HandlerTurn(p.Rem());
      p.Advance();
      var star := p.Looking(Star);
      if star {
        p.Advance();
      }
      var h := ParseHandler(p);
      if h.None? {
        AfterErr(isTryStar, handlers);
        return None;
      }
      AfterMore(isTryStar, handlers, star, h.value, SG.HandlerTail(p.Rem()));
      isTryStar, handlers := isTryStar || star, handlers + [h.value];
    }
    HandlerTurn(p.Rem());
    AfterMore(isTryStar, handlers, false, Handler(None, None, []), SG.HandlerTail(p.Rem()));
    r := Some(SG.Handlers(isTryStar, handlers));
  }

  lemma AfterErr(star: bool, hs: seq<Handler>)
    ensures After(star, hs, G.Err) == G.Err
  {
  }

  method ParseHandler(p: Parser) returns (r: Option<Handler>)
    requires p.Valid()
    modifies p
    ensures p.Valid() && Gives(SG.ParseHandler(old(p.Rem())), r, p.Rem())
    decreases Len(p.Rem()), 10
  {
    hide SG.ParseHandlerType, SG.ParseBlock, G.WordText, Parser.Valid, Parser.Rem, Parser.Ahead;
    var typ: Option<Expr> := None;
    var name: Option<string> := None;
    if !p.Looking(Colon) {
      typ := HandlerType(p);
      if typ.None? {
        return None;
      }
      ghost var u := p.Rem();
      if p.IsKeyword(KwAs) {
        p.Advance();
        name := p.AttrName();
        if name.None? {
          return None;
        }
      }
      assert SG.ParseAs(u) == G.Ok(name, p.Rem());
    }
    var body := ParseBlock(p);
    r := if body.None? then None else Some(Handler(typ, name, body.value));
  }

  method HandlerType(p: Parser) returns (r: Option<Expr>)
    requires p.Valid()
    modifies p
    ensures p.Valid() && Gives(SG.ParseHandlerType(old(p.Rem())), r, p.Rem())
  {
    hide G.ParseExpr, Parser.Valid, Parser.Rem, Parser.Ahead;
    var first := p.ParseExpr();
    if first.None? || !p.Looking(Comma) {
      return first;
    }
    ghost var t1 := p.Rem();
    var more: seq<Expr> := [];
    PrependNone(SG.HandlerTypeTail(t1));
    while p.Looking(Comma)
      invariant p.Valid()
      invariant SG.HandlerTypeTail(t1) == Prepend(more, SG.HandlerTypeTail(p.Rem()))
      decreases Len(p.Rem())
    {
      ghost var t := p.Rem();
      p.Advance();
      if p.Looking(Colon) || p.IsKeyword(KwAs) {
        PrependEnd(more, p.Rem());
        return Some(Tuple([first.value] + more));
      }
      var next := p.ParseExpr();
      if next.None? {
        return None;
      }
      assert SG.HandlerTypeTail(t) == Prepend([next.value], SG.HandlerTypeTail(p.Rem()));
      PrependMore(more, next.value, SG.HandlerTypeTail(p.Rem()));
      more := more + [next.value];
    }
    PrependEnd(more, p.Rem());
    r := Some(Tuple([first.value] + more));
  }

  // ----- definitions -----

  method ParseFunctionDef(p: Parser, ds: seq<Expr>, isAsync: bool) returns (r: Option<Stmt>)
    requires p.Valid() && p.Rem().Cons?
    modifies p
    ensures p.Valid() && Gives(SG.ParseFunctionDef(ds, isAsync, old(p.Rem())), r, p.Rem())
    decreases Len(p.Rem()), 6
  {
    hide G.ParseAttrName, SG.ParseParams, SG.ParseReturns, SG.ParseBlock, Parser.Valid, Parser.Rem, Parser.Ahead;
    p.Advance();
    var name := p.AttrName();
    if name.None? {
      return None;
    }
    var ok := p.Expect(LPar);
    if !ok {
      return None;
    }
    var params := ParseParams(p);
    if params.None? {
      return None;
    }
    ok := p.Expect(RPar);
    if !ok {
      return None;
    }
    var rtype := Returns(p);
    if rtype.None? {
      return None;
    }
    var body := ParseBlock(p);
    r := if body.None? then None else Some(FunctionDef(isAsync, ds, name.value, params.value, rtype.value, body.value));
  }

  /** `->` and the type after it, when there is one. */
  method Returns(p: Parser) returns (r: Option<Option<Expr>>)
    requires p.Valid()
    modifies p
    ensures p.Valid() && Gives(SG.ParseReturns(old(p.Rem())), r, p.Rem())
  {
    hide G.ParseExpr, Parser.Valid, Parser.Rem, Parser.Ahead;
    if !p.Looking(Arrow) {
      return Some(None);
    }
    p.Advance();
    var e := p.ParseExpr();
    r := if e.None? then None else Some(e);
  }

  method ParseClassDef(p: Parser, ds: seq<Expr>) returns (r: Option<Stmt>)
    requires p.Valid() && p.Rem().Cons?
    modifies p
    ensures p.Valid() && Gives(SG.ParseClassDef(ds, old(p.Rem())), r, p.Rem())
    decreases Len(p.Rem()), 6
  {
    hide G.ParseAttrName, G.ParseCallArgs, SG.ParseBlock, Parser.Valid, Parser.Rem, Parser.Ahead;
    p.Advance();
    var name := p.AttrName();
    if name.None? {
      return None;
    }
    var c := G.CallArgs([], []);
    ghost var u := p.Rem();
    if p.Looking(LPar) {
      p.Advance();
      var args := p.ParseCallArgs();
      if args.None? {
        return None;
      }
      c := args.value;
    }
    assert SG.ParseBases(u) == G.Ok(c, p.Rem());
    var body := ParseBlock(p);
    r := if body.None? then None else Some(ClassDef(ds, name.value, c.args, c.keywords, body.value));
  }

  method ParseParams(p: Parser) returns (r: Option<Arguments>)
    requires p.Valid()
    modifies p
    ensures p.Valid() && Gives(SG.ParseParams(old(p.Rem())), r, p.Rem())
  {
    hide SG.ParamStep, Parser.Valid, Parser.Rem, Parser.Ahead;
    var a := G.NO_ARGS;
    if p.Looking(RPar) {
      return Some(a);
    }
    var state := SG.Normal;
    ghost var t0 := p.Rem();
    while true
      invariant p.Valid()
      invariant SG.ParamLoop(G.NO_ARGS, SG.Normal, t0) == SG.ParamLoop(a, state, p.Rem())
      decreases Len(p.Rem())
    {
      var s := Param(p, a, state);
      if s.None? {
        return None;
      }
      a, state := s.value.0, s.value.1;
      if !p.Looking(Comma) {
        break;
      }
      p.Advance();
      if p.Looking(RPar) {
        break;
      }
    }
    r := Some(a);
  }

  /** One parameter or marker. */
  method Param(p: Parser, a: Arguments, state: SG.ParamState) returns (r: Option<(Arguments, SG.ParamState)>)
    requires p.Valid()
    modifies p
    ensures p.Valid() && Gives(SG.ParamStep(a, state, old(p.Rem())), r, p.Rem())
  {
    hide G.ParseExpr, G.ParseAttrName, G.AddParam, SG.ParseParam, Parser.Valid, Parser.Rem, Parser.Ahead;
    if p.Looking(Slash) {
      if state != SG.Normal {
        return None;
      }
      p.Advance();
      return Some((a.(posonly := a.posonly + a.args, args := []), state));
    }
    if p.Looking(Star) {
      if state == SG.AfterStar {
        return None;
      }
      p.Advance();
      if p.Current().Some? && p.Current().value.Nm? {
        var v := ParamName(p);
        return if v.None? then None else Some((a.(vararg := v), SG.AfterStar));
      }
      return Some((a, SG.AfterStar));
    }
    if p.Looking(DStar) {
      p.Advance();
      var v := ParamName(p);
      return if v.None? then None else Some((a.(kwarg := v), SG.Done));
    }
    var v := ParamName(p);
    if v.None? {
      return None;
    }
    ghost var u := p.Rem();
    var d: Option<Expr> := None;
    if p.Looking(Assign) {
      p.Advance();
      d := p.ParseExpr();
      if d.None? {
        assert G.ParseDefault(u).Err?;
        return None;
      }
    }
    assert G.ParseDefault(u) == G.Ok(d, p.Rem());
    r := Some((G.AddParam(a, state == SG.AfterStar, v.value, d), state));
  }

  /** A parameter name and its annotation. */
  method ParamName(p: Parser) returns (r: Option<Ast.Param>)
    requires p.Valid()
    modifies p
    ensures p.Valid() && Gives(SG.ParseParam(old(p.Rem())), r, p.Rem())
  {
    hide G.ParseStarOrExpr, G.ParseAttrName, Parser.Valid, Parser.Rem, Parser.Ahead;
    var n := p.AttrName();
    if n.None? {
      return None;
    }
    if !p.Looking(Colon) {
      return Some(Ast.Param(n.value, None));
    }
    p.Advance();
    var e := p.ParseStarOrExpr();
    r := if e.None? then None else Some(Ast.Param(n.value, e));
  }

  /** ParseFile: the scanner's tokens for a text, parsed as a module.  A text that the scanner
      rejects is rejected. */
  method ParseFile(src: Toks) returns (r: Option<seq<Stmt>>)
    requires Layout.Physical(src)
    ensures Layout.Accepted(Layout.Logical(src)) ==> r == SG.ParseModule(Layout.Logical(src))
    ensures !Layout.Accepted(Layout.Logical(src)) ==> r.None?
  {
    hide SG.ParseModule;
    var toks, calls := StmtScanner.Run(src);
    if toks.None? {
      return None;
    }
    var stream := End;
    for i := |toks.value| downto 0
      invariant stream == Stream(toks.value[i..], End)
    {
      stream := Cons(toks.value[i], stream);
      assert toks.value[i..][1..] == toks.value[i + 1..];
    }
    assert toks.value[0..] == toks.value;
    var p := new Parser(stream);
    r := ParseModule(p);
  }
}
