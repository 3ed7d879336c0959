/** The precedence-driven expression printer (ast/unparse.go), as a specification.
    Print(e, p, k) is the stream of tokens the printer writes for e at precedence p,
    followed by k. */
module Unparse {
  import opened Tokens
  import opened Ast

  const P_TUPLE: nat := 0
  const P_TEST: nat := 1
  const P_NAMED: nat := 2
  const P_OR: nat := 3
  const P_AND: nat := 4
  const P_NOT: nat := 5
  const P_CMP: nat := 6
  const P_BIT_OR: nat := 7
  const P_BIT_XOR: nat := 8
  const P_BIT_AND: nat := 9
  const P_SHIFT: nat := 10
  const P_ARITH: nat := 11
  const P_TERM: nat := 12
  const P_FACTOR: nat := 13
  const P_POWER: nat := 14
  const P_AWAIT: nat := 15
  const P_ATOM: nat := 16

  function OpPrec(op: Operator): nat {
    match op
    case BitOr => P_BIT_OR
    case BitXor => P_BIT_XOR
    case BitAnd => P_BIT_AND
    case LShift | RShift => P_SHIFT
    case Add | Sub => P_ARITH
    case Mult | MatMult | Div | Mod | FloorDiv => P_TERM
    case Pow => P_POWER
  }

  function OpSym(op: Operator): Tok {
    match op
    case BitOr => Pipe
    case BitXor => Caret
    case BitAnd => Amp
    case LShift => LSh
    case RShift => RSh
    case Add => Plus
    case Sub => Minus
    case Mult => Star
    case MatMult => At
    case Div => Slash
    case Mod => Percent
    case FloorDiv => DSlash
    case Pow => DStar
  }

  function CmpSym(op: CmpOp, k: Toks): Toks {
    match op
    case Eq => Cons(OpEq, k)
    case NotEq => Cons(OpNe, k)
    case Lt => Cons(OpLt, k)
    case LtE => Cons(OpLe, k)
    case Gt => Cons(OpGt, k)
    case GtE => Cons(OpGe, k)
    case Is => Cons(Nm(KwIs), k)
    case IsNot => Cons(Nm(KwIs), Cons(Nm(KwNot), k))
    case In => Cons(Nm(KwIn), k)
    case NotIn => Cons(Nm(KwNot), Cons(Nm(KwIn), k))
  }

  function UnarySym(op: UnaryKind): Tok {
    match op
    case Not => Nm(KwNot)
    case UAdd => Plus
    case USub => Minus
    case Invert => Tilde
  }

  function BoolPrec(op: BoolOpKind): nat {
    if op == Or then P_OR else P_AND
  }

  function BoolSym(op: BoolOpKind): Tok {
    Nm(if op == Or then KwOr else KwAnd)
  }

  function ConstTok(c: Const): Tok {
    match c
    case CNone => Nm(KwNone)
    case CTrue => Nm(KwTrue)
    case CFalse => Nm(KwFalse)
    case CEllipsis => Dots
    case CInt(d) => IntLit(d)
    case CFloat(t) => FloatLit(t)
    case CStr(kind, v) => StrLit(kind, v)
  }

  /** The precedence above which a node is wrapped in parentheses; P_ATOM for nodes
      the printer never wraps. */
  function Prec(e: Expr): nat {
    match e
    case BoolOp(op, _) => BoolPrec(op)
    case NamedExpr(_, _) => P_NAMED
    case BinOp(op, _, _) => OpPrec(op)
    case UnaryOp(op, _) => if op == Not then P_NOT else P_FACTOR
    case Lambda(_, _) => P_TEST
    case IfExp(_, _, _) => P_TEST
    case Await(_) => P_AWAIT
    case Compare(_, _) => P_CMP
    case Tuple(es) => if es == [] then P_ATOM else P_TUPLE
    case _ => P_ATOM
  }

  predicate Parens(e: Expr, p: int) {
    p > Prec(e) || (e.Tuple? && |e.telts| == 1)
  }

  function Print(e: Expr, p: int, k: Toks): Toks
    decreases e, 2
  {
    if Parens(e, p) then Wrapped(e, k) else Bare(e, k)
  }

  function Wrapped(e: Expr, k: Toks): Toks
    decreases e, 1
  {
    Cons(LPar, Bare(e, Cons(RPar, k)))
  }

  function Bare(e: Expr, k: Toks): Toks
    decreases e, 0
  {
    match e
    case Name(id) => Cons(Nm(Ident(id)), k)
    case Constant(c) => Cons(ConstTok(c), k)
    case BoolOp(op, vs) => PrintJoin(BoolSym(op), vs, BoolPrec(op) + 1, k)
    case NamedExpr(t, v) => Print(t, P_ATOM, Cons(Walrus, Print(v, P_NAMED + 1, k)))
    case BinOp(op, l, r) =>
      if op == Pow
      then Print(l, P_POWER + 1, Cons(DStar, Print(r, P_POWER, k)))
      else Print(l, OpPrec(op), Cons(OpSym(op), Print(r, OpPrec(op) + 1, k)))
    case UnaryOp(op, x) =>
      Cons(UnarySym(op), Print(x, if op == Not then P_NOT else P_FACTOR, k))
    case Lambda(ps, b) =>
      Cons(Nm(KwLambda), PrintArguments(ps, Cons(Colon, Print(b, P_TEST, k))))
    case IfExp(t, b, o) =>
      Print(b, P_TEST + 1, Cons(Nm(KwIf), Print(t, P_TEST + 1, Cons(Nm(KwElse), Print(o, P_TEST, k)))))
    case Dict(items) => Cons(LBrc, PrintItems(items, true, Cons(RBrc, k)))
    case Set(es) =>
      if es == [] then Cons(Nm(Ident("set")), Cons(LPar, Cons(RPar, k)))
      else Cons(LBrc, PrintJoin(Comma, es, P_TEST, Cons(RBrc, k)))
    case ListComp(x, gs) => Cons(LBrk, Print(x, P_TEST, PrintGens(gs, Cons(RBrk, k))))
    case SetComp(x, gs) => Cons(LBrc, Print(x, P_TEST, PrintGens(gs, Cons(RBrc, k))))
    case DictComp(key, x, gs) =>
      Cons(LBrc, Print(key, P_TEST, Cons(Colon, Print(x, P_TEST, PrintGens(gs, Cons(RBrc, k))))))
    case GeneratorExp(x, gs) => Cons(LPar, Print(x, P_TEST, PrintGens(gs, Cons(RPar, k))))
    case Await(x) =>
      Cons(Nm(KwAwait), if x.Await? then Wrapped(x, k) else Print(x, P_AWAIT, k))
    case Yield(v) =>
      Cons(LPar, Cons(Nm(KwYield),
        match v case None => Cons(RPar, k) case Some(x) => Print(x, P_TUPLE, Cons(RPar, k))))
    case YieldFrom(x) =>
      Cons(LPar, Cons(Nm(KwYield), Cons(Nm(KwFrom), Print(x, P_TEST, Cons(RPar, k)))))
    case Compare(l, cs) => Print(l, P_CMP + 1, PrintComparisons(cs, k))
    case Call(f, args, kws) =>
      Print(f, P_ATOM, Cons(LPar, PrintJoin(Comma, args, P_TEST,
        PrintKeywords(kws, args == [], Cons(RPar, k)))))
    case Attribute(v, a) => PrintAttrValue(v, Cons(Dot, Cons(Nm(Ident(a)), k)))
    case Subscript(v, s) => Print(v, P_ATOM, Cons(LBrk, PrintSlice(s, Cons(RBrk, k))))
    case Starred(x) => Cons(Star, Print(x, P_ATOM, k))
    case ListExpr(es) => Cons(LBrk, PrintJoin(Comma, es, P_TEST, Cons(RBrk, k)))
    case Tuple(es) =>
      if es == [] then Cons(LPar, Cons(RPar, k))
      else PrintJoin(Comma, es, P_TEST, if |es| == 1 then Cons(Comma, k) else k)
    case Slice(lo, up, st) =>
      PrintOpt(lo, Cons(Colon, PrintOpt(up, PrintStep(st, k))))
  }

  /** An integer literal before a dot is wrapped so that the dot is not read as part of it. */
  function PrintAttrValue(v: Expr, k: Toks): Toks
    decreases v, 3
  {
    if v.Constant? && v.c.CInt? then Cons(LPar, Print(v, P_ATOM, Cons(RPar, k))) else Print(v, P_ATOM, k)
  }

  /** Subscript contents: a tuple of two or more is written without parentheses. */
  function PrintSlice(s: Expr, k: Toks): Toks
    decreases s, 3
  {
    if s.Tuple? && |s.telts| > 1 then PrintJoin(Comma, s.telts, P_TEST, k) else Print(s, P_TEST, k)
  }

  function PrintOpt(o: Option<Expr>, k: Toks): Toks
    decreases o
  {
    match o
    case None => k
    case Some(x) => Print(x, P_TEST, k)
  }

  function PrintStep(o: Option<Expr>, k: Toks): Toks
    decreases o
  {
    match o
    case None => k
    case Some(x) => Cons(Colon, Print(x, P_TEST, k))
  }

  /** Elements separated by sep. */
  function PrintJoin(sep: Tok, es: seq<Expr>, p: int, k: Toks): Toks
    decreases es, 1
  {
    if es == [] then k else Print(es[0], p, PrintTail(sep, es[1..], p, k))
  }

  /** Elements each preceded by sep. */
  function PrintTail(sep: Tok, es: seq<Expr>, p: int, k: Toks): Toks
    decreases es
  {
    if es == [] then k else Cons(sep, Print(es[0], p, PrintTail(sep, es[1..], p, k)))
  }

  function PrintComparisons(cs: seq<Comparison>, k: Toks): Toks
    decreases cs
  {
    if cs == [] then k else PrintComparison(cs[0], PrintComparisons(cs[1..], k))
  }

  function PrintComparison(c: Comparison, k: Toks): Toks
    decreases c
  {
    CmpSym(c.op, Print(c.right, P_CMP + 1, k))
  }

  function PrintItems(items: seq<DictItem>, first: bool, k: Toks): Toks
    decreases items
  {
    if items == [] then k
    else Sep(first, PrintItem(items[0], PrintItems(items[1..], false, k)))
  }

  function PrintItem(it: DictItem, k: Toks): Toks
    decreases it
  {
    match it.key
    case None => Cons(DStar, Print(it.value, P_BIT_OR, k))
    case Some(key) => Print(key, P_TEST, Cons(Colon, Print(it.value, P_TEST, k)))
  }

  function PrintKeywords(kws: seq<Keyword>, first: bool, k: Toks): Toks
    decreases kws
  {
    if kws == [] then k
    else Sep(first, PrintKeyword(kws[0], PrintKeywords(kws[1..], false, k)))
  }

  function PrintKeyword(kw: Keyword, k: Toks): Toks
    decreases kw
  {
    var v := Print(kw.value, P_TEST, k);
    match kw.arg
    case None => Cons(DStar, v)
    case Some(a) => Cons(Nm(Ident(a)), Cons(Assign, v))
  }

  function PrintGens(gs: seq<Comprehension>, k: Toks): Toks
    decreases gs
  {
    if gs == [] then k else PrintGen(gs[0], PrintGens(gs[1..], k))
  }

  function PrintGen(g: Comprehension, k: Toks): Toks
    decreases g
  {
    var body := Cons(Nm(KwFor), Print(g.target, P_TUPLE,
                  Cons(Nm(KwIn), Print(g.iter, P_OR, PrintIfs(g.ifs, k)))));
    if g.isAsync then Cons(Nm(KwAsync), body) else body
  }

  function PrintIfs(ifs: seq<Expr>, k: Toks): Toks
    decreases ifs
  {
    if ifs == [] then k else Cons(Nm(KwIf), Print(ifs[0], P_OR, PrintIfs(ifs[1..], k)))
  }

  // ----- parameter lists -----

  /** k, with a comma before it unless it comes first. */
  function Sep(first: bool, k: Toks): Toks {
    if first then k else Cons(Comma, k)
  }

  function PosCount(a: Arguments): nat {
    |a.posonly| + |a.args|
  }

  function Positional(a: Arguments, i: nat): Param
    requires i < PosCount(a)
  {
    if i < |a.posonly| then a.posonly[i] else a.args[i - |a.posonly|]
  }

  /** Defaults are aligned to the right of the positional parameters. */
  function PosDefault(a: Arguments, i: nat): Option<Expr>
    requires i < PosCount(a)
  {
    var j := i - (PosCount(a) - |a.defaults|);
    if 0 <= j < |a.defaults| then Some(a.defaults[j]) else None
  }

  function KwDefault(a: Arguments, i: nat): Option<Expr> {
    if i < |a.kwdefaults| then a.kwdefaults[i] else None
  }

  function PrintArguments(a: Arguments, k: Toks): Toks
    decreases a, 4
  {
    PrintPositional(a, 0, k)
  }

  /** Positional parameters from number i on, then everything after them. */
  function PrintPositional(a: Arguments, i: nat, k: Toks): Toks
    requires i <= PosCount(a)
    decreases a, 3, PosCount(a) - i
  {
    if i == PosCount(a) then PrintStar(a, i == 0, k)
    else
      var rest := PrintPositional(a, i + 1, k);
      var k' := if i + 1 == |a.posonly| then Cons(Comma, Cons(Slash, rest)) else rest;
      var d := PosDefault(a, i);
      Sep(i == 0, PrintParam(Positional(a, i),
        if d.Some? then Cons(Assign, Print(d.value, P_TEST, k')) else k'))
  }

  function PrintStar(a: Arguments, first: bool, k: Toks): Toks
    decreases a, 2
  {
    match a.vararg
    case Some(v) => Sep(first, Cons(Star, PrintParam(v, PrintKwOnly(a, 0, false, k))))
    case None =>
      if a.kwonly == [] then PrintKwOnly(a, 0, first, k)
      else Sep(first, Cons(Star, PrintKwOnly(a, 0, false, k)))
  }

  /** Keyword-only parameters from number i on, then `**kwarg`. */
  function PrintKwOnly(a: Arguments, i: nat, first: bool, k: Toks): Toks
    requires i <= |a.kwonly|
    decreases a, 1, |a.kwonly| - i
  {
    if i == |a.kwonly| then
      match a.kwarg
      case None => k
      case Some(v) => Sep(first, Cons(DStar, PrintParam(v, k)))
    else
      var k' := PrintKwOnly(a, i + 1, false, k);
      var d := KwDefault(a, i);
      Sep(first, PrintParam(a.kwonly[i],
        if d.Some? then Cons(Assign, Print(d.value, P_TEST, k')) else k'))
  }

  function PrintParam(v: Param, k: Toks): Toks
    decreases v
  {
    Cons(Nm(Ident(v.name)), match v.ann case None => k case Some(x) => Cons(Colon, Print(x, P_TEST, k)))
  }
}
