/** The statement printer (ast/unparse.go), as a specification.

    PrintStmt(text, s, ind, k) is what s gives at indentation level ind, followed by k.  With
    `text` it is the printer's output: every line starts with four blanks a level and ends with
    a line end (the blanks inside a line carry nothing and are not kept).  Without, it is the
    stream of tokens that this text stands for, where INDENT and DEDENT enclose each block. */
module UnparseStmt {
  import opened Tokens
  import opened Ast
  import opened Unparse

  function Spaces(n: nat, k: Toks): Toks {
    if n == 0 then k else Cons(Space, Spaces(n - 1, k))
  }

  /** The start of a line. */
  function Lead(text: bool, ind: nat, k: Toks): Toks {
    if text then Spaces(4 * ind, k) else k
  }

  function PrintBody(text: bool, b: seq<Stmt>, ind: nat, k: Toks): Toks
    decreases b, 2
  {
    if b == [] then k else PrintStmt(text, b[0], ind, PrintBody(text, b[1..], ind, k))
  }

  /** The statements of a block one level deeper; an empty block is written `pass`. */
  function PrintSuite(text: bool, b: seq<Stmt>, ind: nat, k: Toks): Toks
    decreases b, 3
  {
    var k' := if text then k else Cons(Dedent, k);
    var lines := if b == [] then Lead(text, ind + 1, WordLine(KwPass, k')) else PrintBody(text, b, ind + 1, k');
    Cons(Colon, Cons(Newline, if text then lines else Cons(Indent, lines)))
  }

  /** A line of one keyword. */
  function WordLine(w: Word, k: Toks): Toks {
    Cons(Nm(w), Cons(Newline, k))
  }

  function PrintStmt(text: bool, s: Stmt, ind: nat, k: Toks): Toks
    decreases s, 2
  {
    match s
    case FunctionDef(_, ds, _, _, _, _) => PrintDecorators(text, ds, ind, Lead(text, ind, PrintDef(text, s, ind, k)))
    case ClassDef(ds, _, _, _, _) => PrintDecorators(text, ds, ind, Lead(text, ind, PrintClass(text, s, ind, k)))
    case If(_, _, _) => PrintIf(text, KwIf, s, ind, k)
    case While(_, _, _) => Lead(text, ind, PrintWhile(text, s, ind, k))
    case For(_, _, _, _, _) => Lead(text, ind, PrintFor(text, s, ind, k))
    case Try(_, _, _, _, _) => Lead(text, ind, PrintTry(text, s, ind, k))
    case _ => Lead(text, ind, PrintSimple(s, Cons(Newline, k)))
  }

  function PrintSimple(s: Stmt, k: Toks): Toks
  {
    match s
    case Pass => Cons(Nm(KwPass), k)
    case Break => Cons(Nm(KwBreak), k)
    case Continue => Cons(Nm(KwContinue), k)
    case ExprStmt(e) => PrintTop(e, k)
    case Return(o) => Cons(Nm(KwReturn), if o.Some? then Print(o.value, P_TUPLE, k) else k)
    case AssignStmt(ts, v) => PrintTargets(ts, Print(v, P_TUPLE, k))
    case AugStmt(t, op, v) =>
      Print(t, P_TEST, Cons(AugAssign(OpSym(op)), Print(v, if HasStarred(v) then P_ATOM else P_TUPLE, k)))
    case AnnStmt(t, ann, v, simple) =>
      var k' := Cons(Colon, Print(ann, P_TEST, if v.Some? then Cons(Assign, Print(v.value, P_TEST, k)) else k));
      if simple then Print(t, P_TEST, k') else Cons(LPar, Print(t, P_TEST, Cons(RPar, k')))
    case _ => Cons(Nm(LedBy(s)), PrintLed(s, k))
  }

  predicate Simple(s: Stmt) {
    || s.Pass? || s.Break? || s.Continue? || s.ExprStmt? || s.Return? || s.AssignStmt? || s.AugStmt? || s.AnnStmt?
    || Led(s)
  }

  /** The end of a simple statement: of its line, or a semicolon. */
  predicate SimpleEnd(k: Toks) {
    At0(k, Newline) || At0(k, Semi)
  }

  /** Statements with a word and a form of their own. */
  predicate Led(s: Stmt) {
    s.Del? || s.Assert? || s.Raise? || s.Import? || s.ImportFrom? || s.Declare?
  }

  function LedBy(s: Stmt): Word
  {
    match s
    case Del(_) => Reserved("del")
    case Assert(_, _) => Reserved("assert")
    case Raise(_, _) => Reserved("raise")
    case Import(_) => Reserved("import")
    case Declare(g, _) => Reserved(if g then "global" else "nonlocal")
    case _ => KwFrom
  }

  /** What follows the word. */
  function PrintLed(s: Stmt, k: Toks): Toks
  {
    match s
    case Del(es) => PrintJoin(Comma, es, P_TEST, k)
    case Assert(e, m) => Print(e, P_TEST, PrintAfter(Comma, m, k))
    case Raise(e, c) => if e.Some? then Print(e.value, P_TEST, PrintAfter(Nm(KwFrom), c, k)) else
       PrintAfter(Nm(KwFrom), c, k)
    case Import(names) => PrintAliases(names, k)
    case ImportFrom(level, source, names) =>
      PrintDots(level, PrintPath(source,
        Cons(Nm(Reserved("import")), if IsStar(names) then Cons(Star, k) else PrintAliases(names, k))))
    case Declare(_, ids) => PrintIds(ids, k)
    case _ => k
  }

  /** An expression after a word or a comma, when there is one. */
  function PrintAfter(x: Tok, o: Option<Expr>, k: Toks): Toks {
    if o.Some? then Cons(x, Print(o.value, P_TEST, k)) else k
  }

  /** `from m import *`. */
  predicate IsStar(names: seq<Alias>) {
    |names| == 1 && names[0].path == ["*"]
  }

  /** The dots of a relative import, which are written one by one; three in a row are one token. */
  function PrintDots(n: nat, k: Toks): Toks {
    if n >= 3 then Cons(Dots, PrintDots(n - 3, k)) else if n > 0 then Cons(Dot, PrintDots(n - 1, k)) else k
  }

  function PrintPath(path: seq<string>, k: Toks): Toks {
    if path == [] then k
    else Cons(Nm(Ident(path[0])), if |path| == 1 then k else Cons(Dot, PrintPath(path[1..], k)))
  }

  function PrintAlias(a: Alias, k: Toks): Toks {
    PrintPath(a.path, if a.asname.Some? then Cons(Nm(KwAs), Cons(Nm(Ident(a.asname.value)), k)) else k)
  }

  function PrintAliases(names: seq<Alias>, k: Toks): Toks {
    if names == [] then k
    else PrintAlias(names[0], if |names| == 1 then k else Cons(Comma, PrintAliases(names[1..], k)))
  }

  function PrintIds(ids: seq<string>, k: Toks): Toks {
    if ids == [] then k
    else Cons(Nm(Ident(ids[0])), if |ids| == 1 then k else Cons(Comma, PrintIds(ids[1..], k)))
  }

  /** An expression statement: a yield is written without its parentheses. */
  function PrintTop(e: Expr, k: Toks): Toks {
    match e
    case Yield(v) => Cons(Nm(KwYield), if v.Some? then Print(v.value, P_TUPLE, k) else k)
    case YieldFrom(x) => Cons(Nm(KwYield), Cons(Nm(KwFrom), Print(x, P_TEST, k)))
    case _ => Print(e, P_TUPLE, k)
  }

  predicate HasStarred(e: Expr) {
    e.Tuple? && exists x :: x in e.telts && x.Starred?
  }

  function PrintTargets(ts: seq<Expr>, k: Toks): Toks {
    if ts == [] then k else Print(ts[0], P_TUPLE, Cons(Assign, PrintTargets(ts[1..], k)))
  }

  // Each of the following prints one kind of statement, and of any other nothing.

  /** `if` or `elif`: an else part that is a single `if` is written as an `elif`. */
  function PrintIf(text: bool, w: Word, s: Stmt, ind: nat, k: Toks): Toks
    decreases s, 1
  {
    if !s.If? then k
    else
      var rest := if IsElif(s.orelse) then PrintIf(text, KwElif, s.orelse[0], ind, k)
        else PrintElse(text, s.orelse, ind, k);
      Lead(text, ind, Cons(Nm(w), Print(s.test, P_TEST, PrintSuite(text, s.body, ind, rest))))
  }

  predicate IsElif(b: seq<Stmt>) {
    |b| == 1 && b[0].If?
  }

  function PrintElse(text: bool, b: seq<Stmt>, ind: nat, k: Toks): Toks
    decreases b, 4
  {
    if b == [] then k else Lead(text, ind, Cons(Nm(KwElse), PrintSuite(text, b, ind, k)))
  }

  function PrintWhile(text: bool, s: Stmt, ind: nat, k: Toks): Toks
    decreases s, 1
  {
    if !s.While? then k
    else
      Cons(Nm(KwWhile), Print(s.test, P_TEST, PrintSuite(text, s.body, ind, PrintElse(text, s.orelse, ind, k))))
  }

  function PrintFor(text: bool, s: Stmt, ind: nat, k: Toks): Toks
    decreases s, 1
  {
    if !s.For? then k
    else
      var suite := PrintSuite(text, s.body, ind, PrintElse(text, s.orelse, ind, k));
      var head := Cons(Nm(KwFor), Print(s.ftarget, P_TUPLE, Cons(Nm(KwIn), Print(s.iter, P_TUPLE, suite))));
      if s.isAsync then Cons(Nm(KwAsync), head) else head
  }

  function PrintTry(text: bool, s: Stmt, ind: nat, k: Toks): Toks
    decreases s, 1
  {
    if !s.Try? then k
    else
      Cons(Nm(KwTry), PrintSuite(text, s.body, ind,
        PrintHandlers(text, s.star, s.handlers, ind,
          PrintElse(text, s.orelse, ind, PrintFinally(text, s.finalbody, ind, k)))))
  }

  function PrintFinally(text: bool, b: seq<Stmt>, ind: nat, k: Toks): Toks
    decreases b, 4
  {
    if b == [] then k else Lead(text, ind, Cons(Nm(KwFinally), PrintSuite(text, b, ind, k)))
  }

  function PrintHandlers(text: bool, star: bool, hs: seq<Handler>, ind: nat, k: Toks): Toks
    decreases hs
  {
    if hs == [] then k
    else Lead(text, ind, PrintHandler(text, star, hs[0], ind, PrintHandlers(text, star, hs[1..], ind, k)))
  }

  function PrintHandler(text: bool, star: bool, h: Handler, ind: nat, k: Toks): Toks
    decreases h
  {
    var suite := PrintSuite(text, h.body, ind, k);
    var named := if h.name.Some? then Cons(Nm(KwAs), Cons(Nm(Ident(h.name.value)), suite)) else suite;
    var what := if h.typ.Some? then Print(h.typ.value, P_TEST, named) else suite;
    Cons(Nm(KwExcept), if star then Cons(Star, what) else what)
  }

  function PrintDecorators(text: bool, ds: seq<Expr>, ind: nat, k: Toks): Toks {
    if ds == [] then k
    else Lead(text, ind, Cons(At, Print(ds[0], P_TEST, Cons(Newline, PrintDecorators(text, ds[1..], ind, k)))))
  }

  function PrintDef(text: bool, s: Stmt, ind: nat, k: Toks): Toks
    decreases s, 1
  {
    if !s.FunctionDef? then k
    else
      var suite := PrintSuite(text, s.body, ind, k);
      var rtype := if s.rtype.Some? then Cons(Arrow, Print(s.rtype.value, P_TEST, suite)) else suite;
      var def := Cons(Nm(KwDef), Cons(Nm(Ident(s.name)), Cons(LPar, PrintArguments(s.params, Cons(RPar, rtype)))));
      if s.isAsync then Cons(Nm(KwAsync), def) else def
  }

  function PrintClass(text: bool, s: Stmt, ind: nat, k: Toks): Toks
    decreases s, 1
  {
    if !s.ClassDef? then k
    else
      Cons(Nm(KwClass), Cons(Nm(Ident(s.name)), PrintBases(s.bases, s.keywords, PrintSuite(text, s.body, ind, k))))
  }

  function PrintBases(bases: seq<Expr>, kws: seq<Keyword>, k: Toks): Toks {
    if bases == [] && kws == [] then k
    else Cons(LPar, PrintJoin(Comma, bases, P_TEST, PrintKeywords(kws, bases == [], Cons(RPar, k))))
  }
}
