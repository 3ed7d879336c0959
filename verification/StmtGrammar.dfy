/** The v2 statement parser (parser/stmt.go) as functions on the tokens of the layout layer. */
module StmtGrammar {
  import opened Tokens
  import opened Ast
  import opened Unparse
  import opened Grammar

  // ----- lines -----

  /** parseModule: every statement of the stream. */
  function ParseModule(t: Toks): Option<seq<Stmt>> {
    match ModuleTail(t)
    case Ok(b, _) => Some(b)
    case Err => None
  }

  function ModuleTail(t: Toks): (r: Res<seq<Stmt>>)
    decreases Len(t)
  {
    if t.End? then Ok([], t)
    else if t.hd.Newline? then ModuleTail(t.tl)
    else
      var (ss, r1) :- ParseLine(t);
      var (more, r2) :- ModuleTail(r1);
      Ok(ss + more, r2)
  }

  /** One compound statement, or the simple statements of one line. */
  function ParseLine(t: Toks): (r: Res<seq<Stmt>>)
    ensures r.Ok? ==> Len(r.rest) < Len(t)
    decreases Len(t), 10
  {
    if At0(t, At) || CompoundStart(t) then
      var (s, r1) :- ParseCompound(t);
      Ok([s], r1)
    else if MatchStart(t) || TypeStart(t) then Err
    else ParseSimpleList(t)
  }

  predicate CompoundStart(t: Toks) {
    IsKw(t, KwIf) || IsKw(t, KwWhile) || IsKw(t, KwFor) || IsKw(t, KwTry) || IsKw(t, Reserved("with"))
    || IsKw(t, KwDef) || IsKw(t, KwClass) || IsKw(t, KwAsync)
  }

  /** `type` followed by a name begins a type alias. */
  predicate TypeStart(t: Toks) {
    IsKw(t, Ident("type")) && AtPlainName(t.tl) && !IsKw(t.tl, Ident("match")) && !IsKw(t.tl, Ident("case"))
  }

  /** `match` begins a match statement when what follows can only be a subject. */
  predicate MatchStart(t: Toks) {
    IsKw(t, Ident("match")) && t.tl.Cons? &&
    match t.tl.hd
    case IntLit(_) | FloatLit(_) | StrLit(_, _) | Dots | LBrc | Minus | Plus | Tilde | Star => true
    case LPar | LBrk => ColonAfter(t.tl.tl, 1)
    case Nm(w) => w.Ident? || w.KwNot? || w.KwLambda? || w.KwAwait? || w.KwYield? || w.KwNone? || w.KwTrue? ||
       w.KwFalse?
    case _ => false
  }

  /** The bracket `depth` levels out is closed and then comes a colon. */
  predicate ColonAfter(t: Toks, depth: nat) {
    t.Cons? &&
    if t.hd.LPar? || t.hd.LBrk? || t.hd.LBrc? then ColonAfter(t.tl, depth + 1)
    else if t.hd.RPar? || t.hd.RBrk? || t.hd.RBrc? then
      (if depth <= 1 then At0(t.tl, Colon) else ColonAfter(t.tl, depth - 1))
    else ColonAfter(t.tl, depth)
  }

  function ParseSimpleList(t: Toks): (r: Res<seq<Stmt>>)
    ensures r.Ok? ==> Len(r.rest) < Len(t)
    decreases Len(t), 8
  {
    if TypeStart(t) then Err
    else
      var (s, r1) :- ParseSimple(t);
      if At0(r1, Semi) && !r1.tl.End? && !At0(r1.tl, Newline) then
        var (more, r2) :- ParseSimpleList(r1.tl);
        Ok([s] + more, r2)
      else LineEnd([s], if At0(r1, Semi) then r1.tl else r1)
  }

  function LineEnd(ss: seq<Stmt>, t: Toks): (r: Res<seq<Stmt>>)
    ensures r.Ok? ==> Len(r.rest) <= Len(t)
  {
    if At0(t, Newline) then Ok(ss, t.tl)
    else if t.End? || At0(t, Dedent) then Ok(ss, t)
    else Err
  }

  // ----- simple statements -----

  /** Statements led by a word of their own. */
  predicate LedStart(t: Toks) {
    IsKw(t, KwFrom) || IsKw(t, Reserved("raise")) || IsKw(t, Reserved("import")) || IsKw(t, Reserved("global"))
    || IsKw(t, Reserved("nonlocal")) || IsKw(t, Reserved("del")) || IsKw(t, Reserved("assert"))
  }

  predicate StmtEnd(t: Toks) {
    t.End? || t.hd.Semi? || t.hd.Newline? || t.hd.Dedent?
  }

  function ParseSimple(t: Toks): (r: Res<Stmt>)
    ensures r.Ok? ==> Len(r.rest) < Len(t)
  {
    if IsKw(t, KwPass) then Ok(Pass, t.tl)
    else if IsKw(t, KwBreak) then Ok(Break, t.tl)
    else if IsKw(t, KwContinue) then Ok(Continue, t.tl)
    else if IsKw(t, KwReturn) then ParseReturn(t)
    else if LedStart(t) then ParseLed(t)
    else ParseExprStmt(t)
  }

  function ParseReturn(t: Toks): (r: Res<Stmt>)
    ensures r.Ok? ==> Len(r.rest) < Len(t)
  {
    if t.End? then Err
    else
      if StmtEnd(t.tl) then Ok(Return(None), t.tl)
      else
        var (v, r) :- ParseTestlist(t.tl);
        Ok(Return(Some(v)), r)
  }

  function ParseLed(t: Toks): (r: Res<Stmt>)
    ensures r.Ok? ==> Len(r.rest) < Len(t)
  {
    if t.End? then Err
    else
      if IsKw(t, KwFrom) then ParseFrom(t.tl)
      else if IsKw(t, Reserved("raise")) then ParseRaise(t.tl)
      else if IsKw(t, Reserved("import")) then
        var (names, r1) :- ImportList(t.tl);
        Ok(Import(names), r1)
      else if IsKw(t, Reserved("del")) then
        var (es, r1) :- DelList(t.tl);
        if ValidTargets(es) then Ok(Del(es), r1) else Err
      else if IsKw(t, Reserved("assert")) then
        var (e, r1) :- ParseExpr(t.tl);
        var (m, r2) :- ParseAfter(Comma, r1);
        Ok(Assert(e, m), r2)
      else
        var (ids, r1) :- IdList(t.tl);
        Ok(Declare(IsKw(t, Reserved("global")), ids), r1)
  }

  function ParseRaise(t: Toks): (r: Res<Stmt>)
    ensures r.Ok? ==> Len(r.rest) <= Len(t)
  {
    if StmtEnd(t) then Ok(Raise(None, None), t)
    else
      var (e, r1) :- ParseExpr(t);
      var (c, r2) :- ParseAfter(Nm(KwFrom), r1);
      Ok(Raise(Some(e), c), r2)
  }

  function ParseAfter(x: Tok, t: Toks): (r: Res<Option<Expr>>)
    ensures r.Ok? ==> Len(r.rest) <= Len(t)
  {
    if !At0(t, x) then Ok(None, t)
    else
      var (e, r1) :- ParseExpr(t.tl);
      Ok(Some(e), r1)
  }

  /** Targets of `del`; a comma may end them. */
  function DelList(t: Toks): (r: Res<seq<Expr>>)
    ensures r.Ok? ==> Len(r.rest) < Len(t)
    decreases Len(t)
  {
    var (e, r1) :- ParseExpr(t);
    if !At0(r1, Comma) then Ok([e], r1)
    else if StmtEnd(r1.tl) then Ok([e], r1.tl)
    else
      var (es, r2) :- DelList(r1.tl);
      Ok([e] + es, r2)
  }

  /** Names of `global` and `nonlocal`. */
  function IdList(t: Toks): (r: Res<seq<string>>)
    ensures r.Ok? ==> Len(r.rest) < Len(t)
    decreases Len(t)
  {
    var (n, r1) :- ParseAttrName(t);
    if !At0(r1, Comma) then Ok([n], r1)
    else
      var (ns, r2) :- IdList(r1.tl);
      Ok([n] + ns, r2)
  }

  function ParsePath(t: Toks): (r: Res<seq<string>>)
    ensures r.Ok? ==> Len(r.rest) < Len(t)
    decreases Len(t)
  {
    var (n, r1) :- ParseAttrName(t);
    if !At0(r1, Dot) then Ok([n], r1)
    else
      var (ns, r2) :- ParsePath(r1.tl);
      Ok([n] + ns, r2)
  }

  function ParseAsName(t: Toks): (r: Res<Option<string>>)
    ensures r.Ok? ==> Len(r.rest) <= Len(t)
  {
    if !IsKw(t, KwAs) then Ok(None, t)
    else
      var (n, r1) :- ParseAttrName(t.tl);
      Ok(Some(n), r1)
  }

  function ImportList(t: Toks): (r: Res<seq<Alias>>)
    ensures r.Ok? ==> Len(r.rest) < Len(t)
    decreases Len(t)
  {
    var (path, r1) :- ParsePath(t);
    var (n, r2) :- ParseAsName(r1);
    if !At0(r2, Comma) then Ok([Alias(path, n)], r2)
    else
      var (more, r3) :- ImportList(r2.tl);
      Ok([Alias(path, n)] + more, r3)
  }

  /** The names of a from-import; a comma may end them inside parentheses. */
  function FromList(parens: bool, t: Toks): (r: Res<seq<Alias>>)
    ensures r.Ok? ==> Len(r.rest) < Len(t)
    decreases Len(t)
  {
    var (name, r1) :- ParseAttrName(t);
    var (n, r2) :- ParseAsName(r1);
    if !At0(r2, Comma) then Ok([Alias([name], n)], r2)
    else if parens && At0(r2.tl, RPar) then Ok([Alias([name], n)], r2.tl)
    else
      var (more, r3) :- FromList(parens, r2.tl);
      Ok([Alias([name], n)] + more, r3)
  }

  /** The dots of a relative import. */
  function DotLevel(t: Toks): (r: (nat, Toks))
    ensures Len(r.1) <= Len(t)
  {
    if At0(t, Dot) then (var r := DotLevel(t.tl); (1 + r.0, r.1))
    else if At0(t, Dots) then (var r := DotLevel(t.tl); (3 + r.0, r.1))
    else (0, t)
  }

  /** After `from`. */
  function ParseFrom(t: Toks): (r: Res<Stmt>)
    ensures r.Ok? ==> Len(r.rest) <= Len(t)
  {
    var (level, r1) := DotLevel(t);
    var (source, r2) :- if AtPlainName(r1) then ParsePath(r1) else Ok([], r1);
    var (_, r3) :- Expect(r2, Nm(Reserved("import")));
    if At0(r3, Star) then Ok(ImportFrom(level, source, [Alias(["*"], None)]), r3.tl)
    else if At0(r3, LPar) then
      var (names, r4) :- FromList(true, r3.tl);
      var (_, r5) :- Expect(r4, RPar);
      Ok(ImportFrom(level, source, names), r5)
    else
      var (names, r4) :- FromList(false, r3);
      Ok(ImportFrom(level, source, names), r4)
  }

  /** An expression, or the assignment that it begins. */
  function ParseExprStmt(t: Toks): (r: Res<Stmt>)
    ensures r.Ok? ==> Len(r.rest) < Len(t)
  {
    var (lhs, r1) :- ParseTestlist(t);
    if At0(r1, Colon) then ParseAnnotation(lhs, r1)
    else if r1.Cons? && r1.hd.AugAssign? then ParseAugmented(lhs, r1)
    else if At0(r1, Assign) then
      var (vs, r2) :- AssignTail(r1);
      AssignOf([lhs] + vs, r2)
    else Ok(ExprStmt(lhs), r1)
  }

  function ParseAnnotation(lhs: Expr, t: Toks): (r: Res<Stmt>)
    ensures r.Ok? ==> Len(r.rest) < Len(t)
  {
    if t.End? then Err
    else
      var (ann, r1) :- ParseExpr(t.tl);
      var (init, r2) :- ParseInit(r1);
      if ValidTarget(lhs) then Ok(AnnStmt(lhs, ann, init, lhs.Name?), r2) else Err
  }

  function ParseInit(t: Toks): (r: Res<Option<Expr>>)
    ensures r.Ok? ==> Len(r.rest) <= Len(t)
  {
    if !At0(t, Assign) then Ok(None, t)
    else
      var (v, r) :- ParseTestlist(t.tl);
      Ok(Some(v), r)
  }

  function AugOp(sym: Tok): Option<Operator> {
    match sym
    case Pipe => Some(BitOr)
    case Caret => Some(BitXor)
    case Amp => Some(BitAnd)
    case LSh => Some(LShift)
    case RSh => Some(RShift)
    case Plus => Some(Add)
    case Minus => Some(Sub)
    case Star => Some(Mult)
    case At => Some(MatMult)
    case Slash => Some(Div)
    case Percent => Some(Mod)
    case DSlash => Some(FloorDiv)
    case DStar => Some(Pow)
    case _ => None
  }

  function ParseAugmented(lhs: Expr, t: Toks): (r: Res<Stmt>)
    ensures r.Ok? ==> Len(r.rest) < Len(t)
  {
    if t.End? || !t.hd.AugAssign? then Err
    else
      var (v, r) :- ParseTestlist(t.tl);
      if ValidTarget(lhs) && AugOp(t.hd.sym).Some? then Ok(AugStmt(lhs, AugOp(t.hd.sym).value, v), r) else Err
  }

  /** The right-hand sides of a chain of `=`. */
  function AssignTail(t: Toks): (r: Res<seq<Expr>>)
    ensures r.Ok? ==> Len(r.rest) <= Len(t)
    ensures r.Ok? && At0(t, Assign) ==> r.v != []
    decreases Len(t)
  {
    if !At0(t, Assign) then Ok([], t)
    else
      var (v, r1) :- ParseTestlist(t.tl);
      var (vs, r2) :- AssignTail(r1);
      Ok([v] + vs, r2)
  }

  /** The last of a chain is the value, the others are the targets. */
  function AssignOf(es: seq<Expr>, t: Toks): Res<Stmt>
  {
    var n := |es| - 1;
    if n >= 0 && ValidTargets(es[..n]) then Ok(AssignStmt(es[..n], es[n]), t) else Err
  }

  predicate ValidTarget(e: Expr)
    decreases e, 1
  {
    match e
    case Name(_) | Attribute(_, _) | Subscript(_, _) | Starred(_) => true
    case Tuple(es) => ValidTargets(es)
    case ListExpr(es) => ValidTargets(es)
    case _ => false
  }

  predicate ValidTargets(es: seq<Expr>)
    decreases es
  {
    es == [] || (ValidTarget(es[0]) && ValidTargets(es[1..]))
  }

  // ----- blocks -----

  /** `: NEWLINE INDENT` statements `DEDENT`, or simple statements on the same line. */
  function ParseBlock(t: Toks): (r: Res<seq<Stmt>>)
    ensures r.Ok? ==> Len(r.rest) < Len(t)
    decreases Len(t), 9
  {
    var (_, r1) :- Expect(t, Colon);
    if At0(r1, Newline) then
      if !At0(r1.tl, Indent) then Err
      else
        assert Len(r1) == 1 + Len(r1.tl);
        var (ss, r2) :- BlockTail(r1.tl.tl);
        Ok(ss, if At0(r2, Dedent) then r2.tl else r2)
    else ParseSimpleList(r1)
  }

  function BlockTail(t: Toks): (r: Res<seq<Stmt>>)
    ensures r.Ok? ==> Len(r.rest) <= Len(t)
    decreases Len(t), 11
  {
    if t.End? || t.hd.Dedent? then Ok([], t)
    else if t.hd.Newline? then BlockTail(t.tl)
    else
      var (ss, r1) :- ParseLine(t);
      var (more, r2) :- BlockTail(r1);
      Ok(ss + more, r2)
  }

  function ParseElse(t: Toks): (r: Res<seq<Stmt>>)
    ensures r.Ok? ==> Len(r.rest) <= Len(t)
    decreases Len(t), 7
  {
    if IsKw(t, KwElse) then ParseBlock(t.tl) else Ok([], t)
  }

  // ----- compound statements -----

  function ParseCompound(t: Toks): (r: Res<Stmt>)
    ensures r.Ok? ==> Len(r.rest) < Len(t)
    decreases Len(t), 9
  {
    if At0(t, At) then
      var (ds, r1) :- DecoratorTail(t);
      ParseDecorated(ds, r1)
    else if IsKw(t, KwIf) then ParseIf(t)
    else if IsKw(t, KwWhile) then ParseWhile(t)
    else if IsKw(t, KwFor) then ParseFor(false, t)
    else if IsKw(t, KwTry) then ParseTry(t)
    else if IsKw(t, KwDef) then ParseFunctionDef([], false, t)
    else if IsKw(t, KwClass) then ParseClassDef([], t)
    else if IsKw(t, KwAsync) then ParseAsync(t)
    else Err
  }

  function ParseAsync(t: Toks): (r: Res<Stmt>)
    ensures r.Ok? ==> Len(r.rest) < Len(t)
    decreases Len(t), 7
  {
    if t.End? then Err
    else
      if IsKw(t.tl, KwDef) then ParseFunctionDef([], true, t.tl)
      else if IsKw(t.tl, KwFor) then ParseFor(true, t.tl)
      else Err
  }

  function DecoratorTail(t: Toks): (r: Res<seq<Expr>>)
    ensures r.Ok? ==> Len(r.rest) <= Len(t)
    decreases Len(t)
  {
    if !At0(t, At) then Ok([], t)
    else
      var (d, r1) :- ParseExpr(t.tl);
      var (_, r2) :- Expect(r1, Newline);
      var (ds, r3) :- DecoratorTail(r2);
      Ok([d] + ds, r3)
  }

  function ParseDecorated(ds: seq<Expr>, t: Toks): (r: Res<Stmt>)
    ensures r.Ok? ==> Len(r.rest) < Len(t)
    decreases Len(t), 8
  {
    if IsKw(t, KwDef) then ParseFunctionDef(ds, false, t)
    else if IsKw(t, KwAsync) && IsKw(t.tl, KwDef) then ParseFunctionDef(ds, true, t.tl)
    else if IsKw(t, KwClass) then ParseClassDef(ds, t)
    else Err
  }

  /** `if` or `elif`; an `elif` becomes an `if` of its own inside the else part. */
  function ParseIf(t: Toks): (r: Res<Stmt>)
    ensures r.Ok? ==> Len(r.rest) < Len(t)
    decreases Len(t), 6
  {
    if t.End? then Err
    else
      var (test, r1) :- ParseExpr(t.tl);
      var (body, r2) :- ParseBlock(r1);
      if IsKw(r2, KwElif) then
        var (nested, r3) :- ParseIf(r2);
        Ok(If(test, body, [nested]), r3)
      else
        var (orelse, r3) :- ParseElse(r2);
        Ok(If(test, body, orelse), r3)
  }

  function ParseWhile(t: Toks): (r: Res<Stmt>)
    ensures r.Ok? ==> Len(r.rest) < Len(t)
    decreases Len(t), 6
  {
    if t.End? then Err
    else
      var (test, r1) :- ParseExpr(t.tl);
      var (body, r2) :- ParseBlock(r1);
      var (orelse, r3) :- ParseElse(r2);
      Ok(While(test, body, orelse), r3)
  }

  function ParseFor(isAsync: bool, t: Toks): (r: Res<Stmt>)
    ensures r.Ok? ==> Len(r.rest) < Len(t)
    decreases Len(t), 6
  {
    if t.End? then Err
    else
      var (target, r1) :- ParseTargetList(t.tl);
      var (_, r2) :- Expect(r1, Nm(KwIn));
      var (iter, r3) :- ParseTestlist(r2);
      var (body, r4) :- ParseBlock(r3);
      var (orelse, r5) :- ParseElse(r4);
      Ok(For(isAsync, target, iter, body, orelse), r5)
  }

  function ParseTry(t: Toks): (r: Res<Stmt>)
    ensures r.Ok? ==> Len(r.rest) < Len(t)
    decreases Len(t), 6
  {
    if t.End? then Err
    else
      var (body, r1) :- ParseBlock(t.tl);
      var (hs, r2) :- HandlerTail(r1);
      var (orelse, r3) :- ParseElse(r2);
      var (final, r4) :- ParseFinally(r3);
      if hs.handlers == [] && final == [] then Err
      else Ok(Try(hs.star, body, hs.handlers, orelse, final), r4)
  }

  function ParseFinally(t: Toks): (r: Res<seq<Stmt>>)
    ensures r.Ok? ==> Len(r.rest) <= Len(t)
    decreases Len(t), 7
  {
    if IsKw(t, KwFinally) then ParseBlock(t.tl) else Ok([], t)
  }

  /** Handlers, and whether any of them was written `except*`. */
  datatype Handlers = Handlers(star: bool, handlers: seq<Handler>)

  function HandlerTail(t: Toks): (r: Res<Handlers>)
    ensures r.Ok? ==> Len(r.rest) <= Len(t)
    decreases Len(t), 8
  {
    if !IsKw(t, KwExcept) then Ok(Handlers(false, []), t)
    else
      var star := At0(t.tl, Star);
      assert Len(t) == 1 + Len(t.tl);
      var (h, r1) :- ParseHandler(if star then t.tl.tl else t.tl);
      var (hs, r2) :- HandlerTail(r1);
      Ok(Handlers(star || hs.star, [h] + hs.handlers), r2)
  }

  /** A handler after `except` or `except*`. */
  function ParseHandler(t: Toks): (r: Res<Handler>)
    ensures r.Ok? ==> Len(r.rest) < Len(t)
    decreases Len(t), 10
  {
    if At0(t, Colon) then
      var (body, r1) :- ParseBlock(t);
      Ok(Handler(None, None, body), r1)
    else
      var (typ, r1) :- ParseHandlerType(t);
      var (name, r2) :- ParseAs(r1);
      var (body, r3) :- ParseBlock(r2);
      Ok(Handler(Some(typ), name, body), r3)
  }

  function ParseHandlerType(t: Toks): (r: Res<Expr>)
    ensures r.Ok? ==> Len(r.rest) < Len(t)
  {
    var (first, r1) :- ParseExpr(t);
    if !At0(r1, Comma) then Ok(first, r1)
    else
      var (es, r2) :- HandlerTypeTail(r1);
      Ok(Tuple([first] + es), r2)
  }

  function HandlerTypeTail(t: Toks): (r: Res<seq<Expr>>)
    ensures r.Ok? ==> Len(r.rest) <= Len(t)
    decreases Len(t)
  {
    if !At0(t, Comma) then Ok([], t)
    else if At0(t.tl, Colon) || IsKw(t.tl, KwAs) then Ok([], t.tl)
    else
      var (e, r1) :- ParseExpr(t.tl);
      var (es, r2) :- HandlerTypeTail(r1);
      Ok([e] + es, r2)
  }

  function ParseAs(t: Toks): (r: Res<Option<string>>)
    ensures r.Ok? ==> Len(r.rest) <= Len(t)
  {
    if !IsKw(t, KwAs) then Ok(None, t)
    else
      var (n, r1) :- ParseAttrName(t.tl);
      Ok(Some(n), r1)
  }

  function ParseFunctionDef(ds: seq<Expr>, isAsync: bool, t: Toks): (r: Res<Stmt>)
    ensures r.Ok? ==> Len(r.rest) < Len(t)
    decreases Len(t), 6
  {
    if t.End? then Err
    else
      var (name, r1) :- ParseAttrName(t.tl);
      var (_, r2) :- Expect(r1, LPar);
      var (params, r3) :- ParseParams(r2);
      var (_, r4) :- Expect(r3, RPar);
      var (rtype, r5) :- ParseReturns(r4);
      var (body, r6) :- ParseBlock(r5);
      Ok(FunctionDef(isAsync, ds, name, params, rtype, body), r6)
  }

  function ParseReturns(t: Toks): (r: Res<Option<Expr>>)
    ensures r.Ok? ==> Len(r.rest) <= Len(t)
  {
    if !At0(t, Arrow) then Ok(None, t)
    else
      var (e, r1) :- ParseExpr(t.tl);
      Ok(Some(e), r1)
  }

  function ParseClassDef(ds: seq<Expr>, t: Toks): (r: Res<Stmt>)
    ensures r.Ok? ==> Len(r.rest) < Len(t)
    decreases Len(t), 6
  {
    if t.End? then Err
    else
      var (name, r1) :- ParseAttrName(t.tl);
      var (c, r2) :- ParseBases(r1);
      var (body, r3) :- ParseBlock(r2);
      Ok(ClassDef(ds, name, c.args, c.keywords, body), r3)
  }

  function ParseBases(t: Toks): (r: Res<CallArgs>)
    ensures r.Ok? ==> Len(r.rest) <= Len(t)
  {
    if At0(t, LPar) then ParseCallArgs(t.tl) else Ok(CallArgs([], []), t)
  }

  // ----- parameters of a definition -----

  datatype ParamState = Normal | AfterStar | Done

  function ParseParams(t: Toks): (r: Res<Arguments>)
    ensures r.Ok? ==> Len(r.rest) <= Len(t)
  {
    if At0(t, RPar) then Ok(NO_ARGS, t) else ParamLoop(NO_ARGS, Normal, t)
  }

  function ParamLoop(a: Arguments, st: ParamState, t: Toks): (r: Res<Arguments>)
    ensures r.Ok? ==> Len(r.rest) < Len(t)
    decreases Len(t), 1
  {
    var (x, r1) :- ParamStep(a, st, t);
    ParamNext(x.0, x.1, r1)
  }

  /** After a parameter: a comma and another, a comma and the end, or the end. */
  function ParamNext(a: Arguments, st: ParamState, t: Toks): (r: Res<Arguments>)
    ensures r.Ok? ==> Len(r.rest) <= Len(t)
    decreases Len(t), 0
  {
    if !At0(t, Comma) then Ok(a, t)
    else if At0(t.tl, RPar) then Ok(a, t.tl)
    else ParamLoop(a, st, t.tl)
  }

  /** One parameter or marker. */
  function ParamStep(a: Arguments, st: ParamState, t: Toks): (r: Res<(Arguments, ParamState)>)
    ensures r.Ok? ==> Len(r.rest) < Len(t)
  {
    if At0(t, Slash) then
      if st != Normal then Err else Ok((a.(posonly := a.posonly + a.args, args := []), st), t.tl)
    else if At0(t, Star) then
      if st == AfterStar then Err
      else if t.tl.Cons? && t.tl.hd.Nm? then
        var (p, r1) :- ParseParam(t.tl);
        Ok((a.(vararg := Some(p)), AfterStar), r1)
      else Ok((a, AfterStar), t.tl)
    else if At0(t, DStar) then
      var (p, r1) :- ParseParam(t.tl);
      Ok((a.(kwarg := Some(p)), Done), r1)
    else
      var (p, r1) :- ParseParam(t);
      var (d, r2) :- ParseDefault(r1);
      Ok((AddParam(a, st == AfterStar, p, d), st), r2)
  }

  /** A parameter name and its annotation. */
  function ParseParam(t: Toks): (r: Res<Param>)
    ensures r.Ok? ==> Len(r.rest) < Len(t)
  {
    var (n, r1) :- ParseAttrName(t);
    if !At0(r1, Colon) then Ok(Param(n, None), r1)
    else
      var (e, r2) :- ParseStarOrExpr(r1.tl);
      Ok(Param(n, Some(e)), r2)
  }
}
