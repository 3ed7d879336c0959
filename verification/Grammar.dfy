/** The v2 expression parser (parser/parser.go) as functions on token streams.
    Each function is one parser method: it returns the tree and the unread stream, or Err.
    The `...Tail` functions are the parser's loops, with the loop's accumulated value as
    an argument where the tree leans left.  A function whose caller has seen its first token
    gives Err where there is none. */
module Grammar {
  import opened Tokens
  import opened Ast

  datatype Res<+T> = Ok(v: T, rest: Toks) | Err {
    predicate IsFailure() { Err? }
    function PropagateFailure<U>(): Res<U>
      requires Err?
    {
      Err
    }
    function Extract(): (T, Toks)
      requires Ok?
    {
      (v, rest)
    }
  }

  // Ladder levels are numbered as the printer numbers precedences.
  const L_EXPR: nat := 1
  const L_NOT: nat := 5
  const L_CMP: nat := 6
  const L_BIT_OR: nat := 7
  const L_UNARY: nat := 13
  const L_TRAILER: nat := 15
  const L_ATOM: nat := 16

  /** The binary operator that t spells at level L of the six left-associative levels. */
  function OpAt(L: int, t: Tok): Option<Operator> {
    if L == 7 then (if t == Pipe then Some(BitOr) else None)
    else if L == 8 then (if t == Caret then Some(BitXor) else None)
    else if L == 9 then (if t == Amp then Some(BitAnd) else None)
    else if L == 10 then (if t == LSh then Some(LShift) else if t == RSh then Some(RShift) else None)
    else if L == 11 then (if t == Plus then Some(Add) else if t == Minus then Some(Sub) else None)
    else if L == 12 then
      (match t
       case Star => Some(Mult)
       case Slash => Some(Div)
       case DSlash => Some(FloorDiv)
       case Percent => Some(Mod)
       case At => Some(MatMult)
       case _ => None)
    else None
  }

  /** The comparison operator at the front of t, one or two tokens long. */
  function CmpAt(t: Toks): (r: Option<(CmpOp, Toks)>)
    ensures r.Some? ==> Len(r.value.1) < Len(t)
  {
    if t.End? then None
    else match t.hd
      case OpLt => Some((Lt, t.tl))
      case OpGt => Some((Gt, t.tl))
      case OpLe => Some((LtE, t.tl))
      case OpGe => Some((GtE, t.tl))
      case OpEq => Some((Eq, t.tl))
      case OpNe => Some((NotEq, t.tl))
      case Nm(KwIn) => Some((In, t.tl))
      case Nm(KwIs) => if IsKw(t.tl, KwNot) then Some((IsNot, t.tl.tl)) else Some((Is, t.tl))
      case Nm(KwNot) => if IsKw(t.tl, KwIn) then Some((NotIn, t.tl.tl)) else None
      case _ => None
  }

  function UnaryAt(t: Tok): Option<UnaryKind> {
    match t
    case Plus => Some(UAdd)
    case Minus => Some(USub)
    case Tilde => Some(Invert)
    case _ => None
  }

  function Expect(t: Toks, x: Tok): (r: Res<()>)
    ensures r.Ok? ==> Len(r.rest) < Len(t)
  {
    if At0(t, x) then Ok((), t.tl) else Err
  }

  // ----- the ladder -----

  function ParseExpr(t: Toks): (r: Res<Expr>)
    ensures r.Ok? ==> Len(r.rest) < Len(t)
    decreases Len(t), 30
  {
    if IsKw(t, KwLambda) then ParseLambda(t)
    else if IsKw(t, KwYield) then ParseYield(t)
    else if AtPlainName(t) && At0(t.tl, Walrus) then
      assert Len(t) == 1 + Len(t.tl);
      var (v, r) :- ParseExpr(t.tl.tl);
      Ok(NamedExpr(Name(t.hd.w.id), v), r)
    else ParseTernary(t)
  }

  function ParseYield(t: Toks): (r: Res<Expr>)
    ensures r.Ok? ==> Len(r.rest) < Len(t)
    decreases Len(t), 29
  {
    if t.End? then Err
    else
      if IsKw(t.tl, KwFrom) then
        assert Len(t) == 1 + Len(t.tl);
        var (v, r) :- ParseExpr(t.tl.tl);
        Ok(YieldFrom(v), r)
      else if t.tl.End? || YieldTerminator(t.tl.hd) then Ok(Yield(None), t.tl)
      else
        var (v, r) :- ParseTestlist(t.tl);
        Ok(Yield(Some(v)), r)
  }

  predicate YieldTerminator(t: Tok) {
    t.RPar? || t.RBrk? || t.RBrc? || t.Comma? || t.Colon? || t.Semi? || t.Newline? || t.Dedent? || t.Assign?
  }

  predicate ListTerminator(t: Tok) {
    t.Assign? || t.Colon? || t.Semi? || t.Newline? || t.Dedent? || t.RPar? || t.RBrk? || t.RBrc? || t.AugAssign?
  }

  /** An expression or, after commas, a tuple without parentheses. */
  function ParseTestlist(t: Toks): (r: Res<Expr>)
    ensures r.Ok? ==> Len(r.rest) < Len(t)
    decreases Len(t), 32
  {
    var (first, r1) :- ParseStarOrExpr(t);
    if !At0(r1, Comma) then Ok(first, r1)
    else
      var (es, r2) :- TestlistTail(r1);
      Ok(Tuple([first] + es), r2)
  }

  function TestlistTail(t: Toks): (r: Res<seq<Expr>>)
    ensures r.Ok? ==> Len(r.rest) <= Len(t)
    decreases Len(t), 33
  {
    if !At0(t, Comma) then Ok([], t)
    else if t.tl.End? || ListTerminator(t.tl.hd) then Ok([], t.tl)
    else
      var (e, r1) :- ParseStarOrExpr(t.tl);
      var (es, r2) :- TestlistTail(r1);
      Ok([e] + es, r2)
  }

  function ParseStarOrExpr(t: Toks): (r: Res<Expr>)
    ensures r.Ok? ==> Len(r.rest) < Len(t)
    decreases Len(t), 31
  {
    if At0(t, Star) then
      var (v, r) :- ParseExpr(t.tl);
      Ok(Starred(v), r)
    else ParseExpr(t)
  }

  function ParseTernary(t: Toks): (r: Res<Expr>)
    ensures r.Ok? ==> Len(r.rest) < Len(t)
    decreases Len(t), 28
  {
    var (body, r1) :- ParseOr(t);
    if !IsKw(r1, KwIf) then Ok(body, r1)
    else
      var (test, r2) :- ParseOr(r1.tl);
      if !IsKw(r2, KwElse) then Err
      else
        var (orelse, r3) :- ParseExpr(r2.tl);
        Ok(IfExp(test, body, orelse), r3)
  }

  function ParseOr(t: Toks): (r: Res<Expr>)
    ensures r.Ok? ==> Len(r.rest) < Len(t)
    decreases Len(t), 27
  {
    var (left, r1) :- ParseAnd(t);
    if !IsKw(r1, KwOr) then Ok(left, r1)
    else
      var (vs, r2) :- OrTail(r1);
      Ok(BoolOp(Or, [left] + vs), r2)
  }

  function OrTail(t: Toks): (r: Res<seq<Expr>>)
    ensures r.Ok? ==> Len(r.rest) <= Len(t)
    decreases Len(t), 26
  {
    if !IsKw(t, KwOr) then Ok([], t)
    else
      var (v, r1) :- ParseAnd(t.tl);
      var (vs, r2) :- OrTail(r1);
      Ok([v] + vs, r2)
  }

  function ParseAnd(t: Toks): (r: Res<Expr>)
    ensures r.Ok? ==> Len(r.rest) < Len(t)
    decreases Len(t), 25
  {
    var (left, r1) :- ParseNot(t);
    if !IsKw(r1, KwAnd) then Ok(left, r1)
    else
      var (vs, r2) :- AndTail(r1);
      Ok(BoolOp(And, [left] + vs), r2)
  }

  function AndTail(t: Toks): (r: Res<seq<Expr>>)
    ensures r.Ok? ==> Len(r.rest) <= Len(t)
    decreases Len(t), 24
  {
    if !IsKw(t, KwAnd) then Ok([], t)
    else
      var (v, r1) :- ParseNot(t.tl);
      var (vs, r2) :- AndTail(r1);
      Ok([v] + vs, r2)
  }

  function ParseNot(t: Toks): (r: Res<Expr>)
    ensures r.Ok? ==> Len(r.rest) < Len(t)
    decreases Len(t), 23
  {
    if IsKw(t, KwNot) then
      var (x, r) :- ParseNot(t.tl);
      Ok(UnaryOp(Not, x), r)
    else ParseCompare(t)
  }

  function ParseCompare(t: Toks): (r: Res<Expr>)
    ensures r.Ok? ==> Len(r.rest) < Len(t)
    decreases Len(t), 22
  {
    var (left, r1) :- ParseBin(L_BIT_OR, t);
    var (cs, r2) :- CompareTail(r1);
    if cs == [] then Ok(left, r2) else Ok(Compare(left, cs), r2)
  }

  function CompareTail(t: Toks): (r: Res<seq<Comparison>>)
    ensures r.Ok? ==> Len(r.rest) <= Len(t)
    decreases Len(t), 21
  {
    match CmpAt(t)
    case None => Ok([], t)
    case Some((op, t')) =>
      var (x, r1) :- ParseBin(L_BIT_OR, t');
      var (cs, r2) :- CompareTail(r1);
      Ok([Comparison(op, x)] + cs, r2)
  }

  /** The six left-associative levels: bit-or 7, bit-xor 8, bit-and 9, shift 10,
      additive 11, multiplicative 12.  Level 13 is the unary level below them. */
  function ParseBin(L: int, t: Toks): (r: Res<Expr>)
    ensures r.Ok? ==> Len(r.rest) < Len(t)
    decreases Len(t), if L < 13 then 20 - L else 7
  {
    if L >= 13 then ParseUnary(t)
    else
      var (left, r1) :- ParseBin(L + 1, t);
      BinTail(L, left, r1)
  }

  function BinTail(L: int, left: Expr, t: Toks): (r: Res<Expr>)
    ensures r.Ok? ==> Len(r.rest) <= Len(t)
    decreases Len(t), 0
  {
    if t.End? || OpAt(L, t.hd).None? then Ok(left, t)
    else
      var (right, r1) :- ParseBin(L + 1, t.tl);
      BinTail(L, BinOp(OpAt(L, t.hd).value, left, right), r1)
  }

  function ParseUnary(t: Toks): (r: Res<Expr>)
    ensures r.Ok? ==> Len(r.rest) < Len(t)
    decreases Len(t), 6
  {
    if t.Cons? && UnaryAt(t.hd).Some? then
      var (x, r) :- ParseUnary(t.tl);
      Ok(UnaryOp(UnaryAt(t.hd).value, x), r)
    else if IsKw(t, KwAwait) then
      var (x, r) :- ParseUnary(t.tl);
      Ok(Await(x), r)
    else ParsePower(t)
  }

  function ParsePower(t: Toks): (r: Res<Expr>)
    ensures r.Ok? ==> Len(r.rest) < Len(t)
    decreases Len(t), 5
  {
    var (left, r1) :- ParseTrailer(t);
    if !At0(r1, DStar) then Ok(left, r1)
    else
      var (right, r2) :- ParseUnary(r1.tl);
      Ok(BinOp(Pow, left, right), r2)
  }

  // ----- trailers -----

  function ParseTrailer(t: Toks): (r: Res<Expr>)
    ensures r.Ok? ==> Len(r.rest) < Len(t)
    decreases Len(t), 4
  {
    var (atom, r1) :- ParseAtom(t);
    TrailerTail(atom, r1)
  }

  function TrailerTail(e: Expr, t: Toks): (r: Res<Expr>)
    ensures r.Ok? ==> Len(r.rest) <= Len(t)
    decreases Len(t), 3
  {
    if t.End? then Ok(e, t)
    else match t.hd
      case Dot =>
        var (a, r1) :- ParseAttrName(t.tl);
        TrailerTail(Attribute(e, a), r1)
      case LPar =>
        var (c, r1) :- ParseCallArgs(t.tl);
        TrailerTail(Call(e, c.args, c.keywords), r1)
      case LBrk =>
        var (s, r1) :- ParseSubscriptBody(t.tl);
        var (_, r2) :- Expect(r1, RBrk);
        TrailerTail(Subscript(e, s), r2)
      case _ => Ok(e, t)
  }

  /** The text of a name token; keywords are names too. */
  function WordText(w: Word): string {
    match w
    case Ident(id) => id
    case Reserved(x) => x
    case KwIf => "if" case KwElse => "else" case KwElif => "elif" case KwOr => "or"
    case KwAnd => "and" case KwNot => "not" case KwIn => "in" case KwIs => "is"
    case KwLambda => "lambda" case KwYield => "yield" case KwFrom => "from"
    case KwAwait => "await" case KwFor => "for" case KwAsync => "async"
    case KwNone => "None" case KwTrue => "True" case KwFalse => "False" case KwAs => "as"
    case KwPass => "pass" case KwBreak => "break" case KwContinue => "continue" case KwReturn => "return"
    case KwWhile => "while" case KwTry => "try" case KwExcept => "except" case KwFinally => "finally"
    case KwDef => "def" case KwClass => "class"
  }

  function ParseAttrName(t: Toks): (r: Res<string>)
    ensures r.Ok? ==> Len(r.rest) < Len(t)
  {
    if t.Cons? && t.hd.Nm? then Ok(WordText(t.hd.w), t.tl) else Err
  }

  function ParseSubscriptBody(t: Toks): (r: Res<Expr>)
    ensures r.Ok? ==> Len(r.rest) < Len(t)
    decreases Len(t), 42
  {
    var (first, r1) :- ParseSubscriptItem(t);
    if !At0(r1, Comma) then Ok(if first.Starred? then Tuple([first]) else first, r1)
    else
      var (es, r2) :- SubscriptTail(r1);
      Ok(Tuple([first] + es), r2)
  }

  function SubscriptTail(t: Toks): (r: Res<seq<Expr>>)
    ensures r.Ok? ==> Len(r.rest) <= Len(t)
    decreases Len(t), 43
  {
    if !At0(t, Comma) then Ok([], t)
    else if At0(t.tl, RBrk) then Ok([], t.tl)
    else
      var (e, r1) :- ParseSubscriptItem(t.tl);
      var (es, r2) :- SubscriptTail(r1);
      Ok([e] + es, r2)
  }

  function ParseSubscriptItem(t: Toks): (r: Res<Expr>)
    ensures r.Ok? ==> Len(r.rest) < Len(t)
    decreases Len(t), 41
  {
    if At0(t, Star) then
      var (v, r) :- ParseExpr(t.tl);
      Ok(Starred(v), r)
    else if At0(t, Colon) then ParseSlice(None, t)
    else
      var (lower, r1) :- ParseExpr(t);
      if !At0(r1, Colon) then Ok(lower, r1) else ParseSlice(Some(lower), r1)
  }

  /** The rest of a slice, from its first colon. */
  function ParseSlice(lower: Option<Expr>, t: Toks): (r: Res<Expr>)
    ensures r.Ok? ==> Len(r.rest) < Len(t)
    decreases Len(t), 40
  {
    if t.End? then Err
    else
      var (upper, r1) :- ParseSlicePart(t.tl);
      if !At0(r1, Colon) then Ok(Slice(lower, upper, None), r1)
      else
        var (step, r2) :- ParseStep(r1.tl);
        Ok(Slice(lower, upper, step), r2)
  }

  function ParseSlicePart(t: Toks): (r: Res<Option<Expr>>)
    ensures r.Ok? ==> Len(r.rest) <= Len(t)
    decreases Len(t), 39
  {
    if At0(t, Colon) || At0(t, RBrk) || At0(t, Comma) then Ok(None, t)
    else
      var (v, r1) :- ParseExpr(t);
      Ok(Some(v), r1)
  }

  function ParseStep(t: Toks): (r: Res<Option<Expr>>)
    ensures r.Ok? ==> Len(r.rest) <= Len(t)
    decreases Len(t), 39
  {
    if At0(t, RBrk) || At0(t, Comma) then Ok(None, t)
    else
      var (v, r1) :- ParseExpr(t);
      Ok(Some(v), r1)
  }

  datatype CallArgs = CallArgs(args: seq<Expr>, keywords: seq<Keyword>)

  /** Call arguments after the opening parenthesis, through the closing one. */
  function ParseCallArgs(t: Toks): (r: Res<CallArgs>)
    ensures r.Ok? ==> Len(r.rest) < Len(t)
    decreases Len(t), 42
  {
    if At0(t, RPar) then Ok(CallArgs([], []), t.tl) else CallTail(true, t)
  }

  /** One argument and what follows it; `empty` says that none came before. */
  function CallTail(empty: bool, t: Toks): (r: Res<CallArgs>)
    ensures r.Ok? ==> Len(r.rest) < Len(t)
    decreases Len(t), 41
  {
    if At0(t, DStar) then
      var (v, r1) :- ParseExpr(t.tl);
      CallNext(CallArgs([], [Keyword(None, v)]), r1)
    else if At0(t, Star) then
      var (v, r1) :- ParseExpr(t.tl);
      CallNext(CallArgs([Starred(v)], []), r1)
    else if AtPlainName(t) && At0(t.tl, Assign) then
      var (v, r1) :- ParseExpr(t.tl.tl);
      CallNext(CallArgs([], [Keyword(Some(t.hd.w.id), v)]), r1)
    else
      var (v, r1) :- ParseExpr(t);
      if empty && CompForStart(r1) then
        var (gs, r2) :- ParseGens(r1);
        var (_, r3) :- Expect(r2, RPar);
        Ok(CallArgs([GeneratorExp(v, gs)], []), r3)
      else CallNext(CallArgs([v], []), r1)
  }

  /** After an argument: a comma and more, a comma and the end, or the end. */
  function CallNext(a: CallArgs, t: Toks): (r: Res<CallArgs>)
    ensures r.Ok? ==> Len(r.rest) < Len(t)
    decreases Len(t), 40
  {
    if At0(t, Comma) && !At0(t.tl, RPar) then
      var (b, r1) :- CallTail(false, t.tl);
      Ok(CallArgs(a.args + b.args, a.keywords + b.keywords), r1)
    else
      var (_, r1) :- Expect(if At0(t, Comma) then t.tl else t, RPar);
      Ok(a, r1)
  }

  // ----- atoms -----

  function ParseAtom(t: Toks): (r: Res<Expr>)
    ensures r.Ok? ==> Len(r.rest) < Len(t)
    decreases Len(t), 2
  {
    if t.End? then Err
    else match t.hd
      case IntLit(d) => Ok(Constant(CInt(d)), t.tl)
      case FloatLit(x) => Ok(Constant(CFloat(x)), t.tl)
      case StrLit(kind, v) => StringTail(kind, v, t.tl)
      case Dots => Ok(Constant(CEllipsis), t.tl)
      case Nm(KwNone) => Ok(Constant(CNone), t.tl)
      case Nm(KwTrue) => Ok(Constant(CTrue), t.tl)
      case Nm(KwFalse) => Ok(Constant(CFalse), t.tl)
      case Nm(w) => Ok(Name(WordText(w)), t.tl)
      case LPar => ParseParenAtom(t.tl)
      case LBrk => ParseListAtom(t.tl)
      case LBrc => ParseBraceAtom(t.tl)
      case _ => Err
  }

  /** Adjacent string literals are joined; the first decides the `u` kind, and bytes
      do not mix with the others. */
  function StringTail(kind: StrKind, v: string, t: Toks): (r: Res<Expr>)
    ensures r.Ok? ==> Len(r.rest) <= Len(t)
    decreases Len(t), 0
  {
    if t.Cons? && t.hd.StrLit? then
      if (kind == Bytes) != (t.hd.kind == Bytes) then Err
      else StringTail(kind, v + t.hd.val, t.tl)
    else Ok(Constant(CStr(kind, v)), t)
  }

  function ParseParenAtom(t: Toks): (r: Res<Expr>)
    ensures r.Ok? ==> Len(r.rest) < Len(t)
    decreases Len(t), 35
  {
    if At0(t, RPar) then Ok(Tuple([]), t.tl)
    else
      var (first, r1) :- ParseStarOrExpr(t);
      if CompForStart(r1) then
        var (gs, r2) :- ParseGens(r1);
        var (_, r3) :- Expect(r2, RPar);
        Ok(GeneratorExp(first, gs), r3)
      else if At0(r1, RPar) then Ok(first, r1.tl)
      else
        var (_, r2) :- Expect(r1, Comma);
        var (es, r3) :- ParenTail(r2);
        var (_, r4) :- Expect(r3, RPar);
        Ok(Tuple([first] + es), r4)
  }

  /** Tuple elements after the first comma. */
  function ParenTail(t: Toks): (r: Res<seq<Expr>>)
    ensures r.Ok? ==> Len(r.rest) <= Len(t)
    decreases Len(t), 35
  {
    if At0(t, RPar) then Ok([], t)
    else
      var (e, r1) :- ParseStarOrExpr(t);
      if At0(r1, Comma) then
        var (es, r2) :- ParenTail(r1.tl);
        Ok([e] + es, r2)
      else Ok([e], r1)
  }

  /** Elements of a list or set display after the first, up to the closing token. */
  function EltsTail(close: Tok, t: Toks): (r: Res<seq<Expr>>)
    ensures r.Ok? ==> Len(r.rest) <= Len(t)
    decreases Len(t), 35
  {
    if !At0(t, Comma) then Ok([], t)
    else if At0(t.tl, close) then Ok([], t.tl)
    else
      var (e, r1) :- ParseStarOrExpr(t.tl);
      var (es, r2) :- EltsTail(close, r1);
      Ok([e] + es, r2)
  }

  function ParseListAtom(t: Toks): (r: Res<Expr>)
    ensures r.Ok? ==> Len(r.rest) < Len(t)
    decreases Len(t), 36
  {
    if At0(t, RBrk) then Ok(ListExpr([]), t.tl)
    else
      var (first, r1) :- ParseStarOrExpr(t);
      if CompForStart(r1) then
        var (gs, r2) :- ParseGens(r1);
        var (_, r3) :- Expect(r2, RBrk);
        Ok(ListComp(first, gs), r3)
      else
        var (es, r2) :- EltsTail(RBrk, r1);
        var (_, r3) :- Expect(r2, RBrk);
        Ok(ListExpr([first] + es), r3)
  }

  function ParseBraceAtom(t: Toks): (r: Res<Expr>)
    ensures r.Ok? ==> Len(r.rest) < Len(t)
    decreases Len(t), 37
  {
    if At0(t, RBrc) then Ok(Dict([]), t.tl)
    else if At0(t, DStar) then
      var (v, r1) :- ParseExpr(t.tl);
      var (items, r2) :- DictTail(r1);
      var (_, r3) :- Expect(r2, RBrc);
      Ok(Dict([DictItem(None, v)] + items), r3)
    else
      var (first, r1) :- ParseStarOrExpr(t);
      if At0(r1, Colon) then ParseDictRest(first, r1.tl)
      else if CompForStart(r1) then
        var (gs, r2) :- ParseGens(r1);
        var (_, r3) :- Expect(r2, RBrc);
        Ok(SetComp(first, gs), r3)
      else
        var (es, r2) :- EltsTail(RBrc, r1);
        var (_, r3) :- Expect(r2, RBrc);
        Ok(Set([first] + es), r3)
  }

  /** A dictionary display or comprehension from its first value on. */
  function ParseDictRest(key: Expr, t: Toks): (r: Res<Expr>)
    ensures r.Ok? ==> Len(r.rest) < Len(t)
    decreases Len(t), 36
  {
    var (v, r1) :- ParseExpr(t);
    if CompForStart(r1) then
      var (gs, r2) :- ParseGens(r1);
      var (_, r3) :- Expect(r2, RBrc);
      Ok(DictComp(key, v, gs), r3)
    else
      var (items, r2) :- DictTail(r1);
      var (_, r3) :- Expect(r2, RBrc);
      Ok(Dict([DictItem(Some(key), v)] + items), r3)
  }

  function DictTail(t: Toks): (r: Res<seq<DictItem>>)
    ensures r.Ok? ==> Len(r.rest) <= Len(t)
    decreases Len(t), 35
  {
    if !At0(t, Comma) then Ok([], t)
    else if At0(t.tl, RBrc) then Ok([], t.tl)
    else
      var (it, r1) :- ParseDictItem(t.tl);
      var (items, r2) :- DictTail(r1);
      Ok([it] + items, r2)
  }

  function ParseDictItem(t: Toks): (r: Res<DictItem>)
    ensures r.Ok? ==> Len(r.rest) < Len(t)
    decreases Len(t), 34
  {
    if At0(t, DStar) then
      var (v, r1) :- ParseExpr(t.tl);
      Ok(DictItem(None, v), r1)
    else
      var (k, r1) :- ParseExpr(t);
      var (_, r2) :- Expect(r1, Colon);
      var (v, r3) :- ParseExpr(r2);
      Ok(DictItem(Some(k), v), r3)
  }

  // ----- comprehensions -----

  predicate CompForStart(t: Toks) {
    IsKw(t, KwFor) || (IsKw(t, KwAsync) && IsKw(t.tl, KwFor))
  }

  function ParseGens(t: Toks): (r: Res<seq<Comprehension>>)
    ensures r.Ok? ==> Len(r.rest) <= Len(t)
    decreases Len(t), 41
  {
    if !CompForStart(t) then Ok([], t)
    else
      var (g, r1) :- ParseGen(t);
      var (gs, r2) :- ParseGens(r1);
      Ok([g] + gs, r2)
  }

  function ParseGen(t: Toks): (r: Res<Comprehension>)
    ensures r.Ok? ==> Len(r.rest) < Len(t)
    decreases Len(t), 40
  {
    if !CompForStart(t) then Err
    else
      var isAsync := IsKw(t, KwAsync);
      assert Len(t) == 1 + Len(t.tl);
      var (target, r1) :- ParseTargetList(if isAsync then t.tl.tl else t.tl);
      if !IsKw(r1, KwIn) then Err
      else
        var (iter, r2) :- ParseOr(r1.tl);
        var (ifs, r3) :- IfsTail(r2);
        Ok(Comprehension(target, iter, ifs, isAsync), r3)
  }

  function IfsTail(t: Toks): (r: Res<seq<Expr>>)
    ensures r.Ok? ==> Len(r.rest) <= Len(t)
    decreases Len(t), 39
  {
    if !IsKw(t, KwIf) then Ok([], t)
    else
      var (c, r1) :- ParseOr(t.tl);
      var (cs, r2) :- IfsTail(r1);
      Ok([c] + cs, r2)
  }

  function ParseTargetList(t: Toks): (r: Res<Expr>)
    ensures r.Ok? ==> Len(r.rest) < Len(t)
    decreases Len(t), 39
  {
    var (first, r1) :- ParseTargetAtom(t);
    if !At0(r1, Comma) then Ok(first, r1)
    else
      var (es, r2) :- TargetListTail(r1);
      Ok(Tuple([first] + es), r2)
  }

  function TargetListTail(t: Toks): (r: Res<seq<Expr>>)
    ensures r.Ok? ==> Len(r.rest) <= Len(t)
    decreases Len(t), 39
  {
    if !At0(t, Comma) then Ok([], t)
    else if IsKw(t.tl, KwIn) || At0(t.tl, RPar) || At0(t.tl, RBrk) || At0(t.tl, RBrc) then Ok([], t.tl)
    else
      var (e, r1) :- ParseTargetAtom(t.tl);
      var (es, r2) :- TargetListTail(r1);
      Ok([e] + es, r2)
  }

  function ParseTargetAtom(t: Toks): (r: Res<Expr>)
    ensures r.Ok? ==> Len(r.rest) < Len(t)
    decreases Len(t), 38
  {
    if At0(t, Star) then
      var (v, r) :- ParseTargetAtom(t.tl);
      Ok(Starred(v), r)
    else if At0(t, LPar) then
      var (e, r1) :- ParseParenAtom(t.tl);
      TrailerTail(e, r1)
    else if At0(t, LBrk) then
      var (es, r1) :- TargetElts(t.tl);
      var (_, r2) :- Expect(r1, RBrk);
      Ok(ListExpr(es), r2)
    else if t.Cons? && t.hd.Nm? then TargetTail(Name(WordText(t.hd.w)), t.tl)
    else Err
  }

  function TargetElts(t: Toks): (r: Res<seq<Expr>>)
    ensures r.Ok? ==> Len(r.rest) <= Len(t)
    decreases Len(t), 39
  {
    if At0(t, RBrk) then Ok([], t)
    else
      var (e, r1) :- ParseTargetAtom(t);
      if At0(r1, Comma) then
        var (es, r2) :- TargetElts(r1.tl);
        Ok([e] + es, r2)
      else Ok([e], r1)
  }

  /** Attribute and subscript trailers of a target that starts with a name. */
  function TargetTail(e: Expr, t: Toks): (r: Res<Expr>)
    ensures r.Ok? ==> Len(r.rest) <= Len(t)
    decreases Len(t), 3
  {
    if At0(t, Dot) then
      var (a, r1) :- ParseAttrName(t.tl);
      TargetTail(Attribute(e, a), r1)
    else if At0(t, LBrk) then
      var (s, r1) :- ParseSubscriptBody(t.tl);
      var (_, r2) :- Expect(r1, RBrk);
      TargetTail(Subscript(e, s), r2)
    else Ok(e, t)
  }

  // ----- lambda -----

  function ParseLambda(t: Toks): (r: Res<Expr>)
    ensures r.Ok? ==> Len(r.rest) < Len(t)
    decreases Len(t), 29
  {
    if t.End? then Err
    else
      var (ps, r1) :- LambdaArgs(NO_ARGS, false, t.tl);
      var (_, r2) :- Expect(r1, Colon);
      var (b, r3) :- ParseExpr(r2);
      Ok(Lambda(ps, b), r3)
  }

  const NO_ARGS := Arguments([], [], [], None, [], [], None)

  /** The lambda parameter loop: `a` is what has been read and `kwonly` the loop's state. */
  function LambdaArgs(a: Arguments, kwonly: bool, t: Toks): (r: Res<Arguments>)
    ensures r.Ok? ==> Len(r.rest) <= Len(t)
    decreases Len(t), 41
  {
    if At0(t, Colon) then Ok(a, t)
    else
      var (s, r1) :- LambdaArg(a, kwonly, t);
      LambdaNext(s.0, s.1, r1)
  }

  /** After a parameter: a comma and the rest of the loop, or the closing colon. */
  function LambdaNext(a: Arguments, kwonly: bool, t: Toks): (r: Res<Arguments>)
    ensures r.Ok? ==> Len(r.rest) <= Len(t)
    decreases Len(t), 40
  {
    if At0(t, Comma) then LambdaArgs(a, kwonly, t.tl)
    else if At0(t, Colon) then Ok(a, t)
    else Err
  }

  /** One parameter or marker. */
  function LambdaArg(a: Arguments, kwonly: bool, t: Toks): (r: Res<(Arguments, bool)>)
    ensures r.Ok? ==> Len(r.rest) < Len(t)
    decreases Len(t), 40
  {
    if At0(t, Star) then
      if At0(t.tl, Comma) || At0(t.tl, Colon) then Ok((a, true), t.tl)
      else
        var (n, r1) :- ParseAttrName(t.tl);
        Ok((a.(vararg := Some(Param(n, None))), true), r1)
    else if At0(t, DStar) then
      var (n, r1) :- ParseAttrName(t.tl);
      Ok((a.(kwarg := Some(Param(n, None))), kwonly), r1)
    else if At0(t, Slash) then Ok((a.(posonly := a.args, args := []), kwonly), t.tl)
    else
      var (n, r1) :- ParseAttrName(t);
      var (d, r2) :- ParseDefault(r1);
      Ok((AddParam(a, kwonly, Param(n, None), d), kwonly), r2)
  }

  function ParseDefault(t: Toks): (r: Res<Option<Expr>>)
    ensures r.Ok? ==> Len(r.rest) <= Len(t)
    decreases Len(t), 39
  {
    if !At0(t, Assign) then Ok(None, t)
    else
      var (v, r1) :- ParseExpr(t.tl);
      Ok(Some(v), r1)
  }

  function AddParam(a: Arguments, kwonly: bool, p: Param, d: Option<Expr>): Arguments {
    if kwonly then a.(kwonly := a.kwonly + [p], kwdefaults := a.kwdefaults + [d])
    else a.(args := a.args + [p], defaults := a.defaults + (if d.Some? then [d.value] else []))
  }

  // ----- one name for the ladder -----

  /** The parser method for level L. */
  function ParseAt(L: int, t: Toks): Res<Expr> {
    if L <= 1 then ParseExpr(t)
    else if L == 2 then ParseTernary(t)
    else if L == 3 then ParseOr(t)
    else if L == 4 then ParseAnd(t)
    else if L == 5 then ParseNot(t)
    else if L == 6 then ParseCompare(t)
    else if L <= 12 then ParseBin(L, t)
    else if L == 13 then ParseUnary(t)
    else if L == 14 then ParsePower(t)
    else if L == 15 then ParseTrailer(t)
    else ParseAtom(t)
  }

  /** ParseExpression: a whole stream is one expression. */
  function ParseExpression(t: Toks): Option<Expr> {
    match ParseExpr(t)
    case Ok(e, End) => Some(e)
    case _ => None
  }
}
