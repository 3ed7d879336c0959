/** The layout layer on printed statements: the physical text, indented by four blanks a level,
    comes out as the token stream in which INDENT and DEDENT enclose each block. */
module BlockLayout {
  import opened Tokens
  import opened Ast
  import opened Unparse
  import opened Layout
  import opened OneLine
  import opened UnparseStmt
  import opened Reading
  import opened Descent
  import opened RoundTrip
  import opened StmtReading
  import opened StmtRoundTrip

  /** The stack inside a block at level ind. */
  function Levels4(ind: nat): (s: Stack)
    ensures |s| == ind + 1 && Top(s) == 4 * ind
    ensures forall i :: 0 <= i <= ind ==> s[i] == 4 * i
  {
    if ind == 0 then [0] else Levels4(ind - 1) + [4 * ind]
  }

  function Lay4(ind: nat): Layer {
    Lay(Levels4(ind))
  }

  /** The layer at the start of a line of level ind. */
  function Resumed(k: Toks, ind: nat): Toks {
    Start(false, k, 0, Levels4(ind))
  }

  predicate Text(k: Toks) {
    k.Cons? && Content(k.hd)
  }

  function Blanks(k: Toks): nat {
    if k.Cons? && k.hd.Space? then 1 + Blanks(k.tl) else 0
  }

  function After(k: Toks): Toks {
    if k.Cons? && k.hd.Space? then After(k.tl) else k
  }

  /** A line of level ind. */
  predicate LineAt(k: Toks, ind: nat) {
    Blanks(k) == 4 * ind && Text(After(k))
  }

  /** The end of the text, or a line of some level up to ind. */
  predicate Shallow(k: Toks, ind: nat) {
    k.End? || (Blanks(k) % 4 == 0 && Blanks(k) <= 4 * ind && Text(After(k)))
  }

  lemma LineIsShallow(k: Toks, ind: nat)
    requires LineAt(k, ind)
    ensures Shallow(k, ind)
  {
  }

  lemma Deeper(k: Toks, ind: nat)
    requires Shallow(k, ind)
    ensures Shallow(k, ind + 1)
  {
  }

  lemma {:induction false} SpacesOf(n: nat, k: Toks)
    requires Text(k)
    ensures Blanks(Spaces(n, k)) == n && After(Spaces(n, k)) == k
    decreases n
  {
    if n > 0 {
      SpacesOf(n - 1, k);
    }
  }

  lemma {:induction false} SkipBlanks(k: Toks, c: nat, s: Stack)
    ensures Start(false, k, c, s) == Start(false, After(k), c + Blanks(k), s)
    decreases k
  {
    if k.Cons? && k.hd.Space? {
      SkipBlanks(k.tl, c + 1, s);
    }
  }

  /** A line at the level of the stack: no layout token. */
  lemma Stay(k: Toks, ind: nat)
    requires LineAt(k, ind)
    ensures Resumed(k, ind) == Seen(After(k), 0, Lay4(ind))
  {
    hide Mid, Levels4;
    SkipBlanks(k, 0, Levels4(ind));
    assert Pop(Levels4(ind), 4 * ind) == Levels4(ind);
  }

  /** A line one level deeper: an INDENT. */
  lemma Enter(k: Toks, ind: nat)
    requires LineAt(k, ind + 1)
    ensures Resumed(k, ind) == Cons(Indent, Resumed(k, ind + 1))
  {
    hide Mid;
    SkipBlanks(k, 0, Levels4(ind));
    Stay(k, ind + 1);
    assert Levels4(ind + 1) == Levels4(ind) + [4 * (ind + 1)];
  }

  lemma PopLevels(ind: nat, j: nat)
    requires j <= ind
    ensures Pop(Levels4(ind), 4 * j) == Levels4(j)
    decreases ind
  {
    if j < ind {
      assert Levels4(ind)[..ind] == Levels4(ind - 1);
      PopLevels(ind - 1, j);
    }
  }

  /** What follows a block, at the block's level: a DEDENT first. */
  lemma Leave(k: Toks, ind: nat)
    requires Shallow(k, ind)
    ensures Resumed(k, ind + 1) == Cons(Dedent, Resumed(k, ind))
  {
    hide Mid, Start, Levels4, Pop, Dedents;
    if k.Cons? {
      var j := Blanks(k) / 4;
      SkipBlanks(k, 0, Levels4(ind));
      SkipBlanks(k, 0, Levels4(ind + 1));
      PopLevels(ind, j);
      PopLevels(ind + 1, j);
      PopOwn(ind, j);
      StartText(After(k), 4 * j, Levels4(ind));
      StartText(After(k), 4 * j, Levels4(ind + 1));
      OneMore(ind - j, Seen(After(k), 0, Lay4(j)));
    } else {
      CloseMore(ind);
    }
  }

  /** The first content of a line no deeper than the stack. */
  lemma StartText(t: Toks, c: nat, s: Stack)
    requires Text(t) && c <= Top(s) && Top(Pop(s, c)) == c
    ensures Start(false, t, c, s) == Dedents(|s| - |Pop(s, c)|, Mid(false, t, 0, Pop(s, c)))
  {
    hide Mid, Dedents, Increasing;
  }

  lemma OneMore(n: nat, k: Toks)
    ensures Dedents(n + 1, k) == Cons(Dedent, Dedents(n, k))
  {
  }

  lemma CloseMore(ind: nat)
    ensures Resumed(End, ind + 1) == Cons(Dedent, Resumed(End, ind))
  {
    hide Levels4;
  }

  lemma PopOwn(ind: nat, j: nat)
    requires j <= ind
    ensures 4 * j <= Top(Levels4(ind)) && 4 * j <= Top(Levels4(ind + 1))
    ensures Top(Levels4(j)) == 4 * j && |Levels4(ind)| - |Levels4(j)| == ind - j
  {
  }

  lemma EndOfLine(k: Toks, ind: nat)
    ensures Seen(Cons(Newline, k), 0, Lay4(ind)) == Cons(Newline, Resumed(k, ind))
  {
    hide Levels4;
  }

  // ----- lines -----

  /** A line of text t at level ind. */
  lemma LeadLine(t: Toks, ind: nat)
    requires Text(t)
    ensures LineAt(Lead(true, ind, t), ind)
    ensures Resumed(Lead(true, ind, t), ind) == Seen(t, 0, Lay4(ind))
  {
    hide Mid, Start, Levels4, Spaces, Blanks, After;
    SpacesOf(4 * ind, t);
    Stay(Lead(true, ind, t), ind);
  }

  lemma TextHead(t: Toks)
    requires TopHead(t)
    ensures Text(t)
  {
  }

  lemma {:induction false} SimpleText(s: Stmt, k: Toks)
    requires Simple(s) && WfStmt(s)
    ensures Text(PrintSimple(s, Cons(Newline, k)))
  {
    hide Print, TopHead;
    var k' := Cons(Newline, k);
    if s.ExprStmt? {
      ReadTop(s.value, k');
      TextHead(PrintTop(s.value, k'));
    } else if s.AssignStmt? {
      ReadAssign(s, k');
      TextHead(PrintSimple(s, k'));
    } else if s.AugStmt? {
      ReadAug(s, k');
      TextHead(PrintSimple(s, k'));
    } else if s.AnnStmt? {
      ReadAnn(s, k');
      TextHead(PrintSimple(s, k'));
    }
  }

  // ----- blocks -----

  lemma {:induction false} BodyLine(b: seq<Stmt>, ind: nat, k: Toks)
    requires WfBody(b)
    ensures b != [] ==> LineAt(PrintBody(true, b, ind, k), ind)
    ensures Shallow(k, ind) ==> Shallow(PrintBody(true, b, ind, k), ind)
  {
    hide PrintStmt, LineAt, Shallow, WfStmt;
    if b != [] {
      StmtLine(b[0], ind, PrintBody(true, b[1..], ind, k));
      LineIsShallow(PrintBody(true, b, ind, k), ind);
    }
  }

  lemma {:induction false} StmtLine(s: Stmt, ind: nat, k: Toks)
    requires WfStmt(s)
    ensures LineAt(PrintStmt(true, s, ind, k), ind)
  {
    hide PrintSimple, PrintSuite, Print, LineAt, Lead, Text, WfStmt, PrintElse, PrintDef, PrintClass;
    if Simple(s) {
      SimpleText(s, k);
      LeadLine(PrintSimple(s, Cons(Newline, k)), ind);
    } else if s.If? || s.While? || s.For? || s.Try? {
      ControlLine(s, ind, k);
    } else {
      DefinitionLine(s, ind, k);
    }
  }

  lemma NameText(w: Word, k: Toks)
    ensures Text(Cons(Nm(w), k)) && Text(Cons(At, k))
  {
  }

  lemma ControlLine(s: Stmt, ind: nat, k: Toks)
    requires s.If? || s.While? || s.For? || s.Try?
    ensures LineAt(PrintStmt(true, s, ind, k), ind)
  {
    hide PrintSuite, Print, LineAt, Lead, Text, PrintElse, PrintHandlers;
    if s.If? {
      IfText(KwIf, s, ind, k);
    } else {
      var t := if s.While? then PrintWhile(true, s, ind, k) else if s.For? then PrintFor(true, s, ind, k)
        else PrintTry(true, s, ind, k);
      NameText(t.hd.w, t.tl);
      LeadLine(t, ind);
    }
  }

  lemma IfText(w: Word, s: Stmt, ind: nat, k: Toks)
    requires s.If?
    ensures LineAt(PrintIf(true, w, s, ind, k), ind)
  {
    hide PrintSuite, Print, LineAt, Lead, Text, PrintElse;
    var rest := if IsElif(s.orelse) then PrintIf(true, KwElif, s.orelse[0], ind, k)
      else PrintElse(true, s.orelse, ind, k);
    var t := Print(s.test, P_TEST, PrintSuite(true, s.body, ind, rest));
    NameText(w, t);
    LeadLine(Cons(Nm(w), t), ind);
  }

  lemma DefinitionLine(s: Stmt, ind: nat, k: Toks)
    requires s.FunctionDef? || s.ClassDef?
    ensures LineAt(PrintStmt(true, s, ind, k), ind)
  {
    hide PrintSuite, Print, PrintArguments, PrintBases, LineAt, Lead, Text, PrintDecorators;
    var t := if s.FunctionDef? then PrintDef(true, s, ind, k) else PrintClass(true, s, ind, k);
    NameText(t.hd.w, t.tl);
    LeadLine(t, ind);
    DecoratorsLine(s.decorators, ind, Lead(true, ind, t));
  }

  lemma DecoratorsLine(ds: seq<Expr>, ind: nat, k: Toks)
    requires LineAt(k, ind)
    ensures LineAt(PrintDecorators(true, ds, ind, k), ind)
  {
    hide Print, LineAt, Lead, Text;
    if ds != [] {
      var t := Print(ds[0], P_TEST, Cons(Newline, PrintDecorators(true, ds[1..], ind, k)));
      NameText(KwPass, t);
      LeadLine(Cons(At, t), ind);
    }
  }

  /** A block, from its colon: everything up to the line after it. */
  lemma {:induction false} LaySuite(b: seq<Stmt>, ind: nat, k: Toks)
    requires WfBody(b) && Shallow(k, ind)
    ensures Seen(PrintSuite(true, b, ind, k), 0, Lay4(ind)) == PrintSuite(false, b, ind, Resumed(k, ind))
    decreases b, 21
  {
    hide PrintBody, Seen, Resumed, Levels4, Lead, LineAt, Shallow, WfBody;
    var lines := if b == [] then Lead(true, ind + 1, WordLine(KwPass, k)) else PrintBody(true, b, ind + 1, k);
    Deeper(k, ind);
    Flat(Colon, Cons(Newline, lines), 0, Lay4(ind));
    EndOfLine(lines, ind);
    if b == [] {
      NameText(KwPass, Cons(Newline, k));
      LeadLine(WordLine(KwPass, k), ind + 1);
      Flat(Nm(KwPass), Cons(Newline, k), 0, Lay4(ind + 1));
      EndOfLine(k, ind + 1);
      assert Lead(false, ind + 1, WordLine(KwPass, Resumed(k, ind + 1))) == WordLine(KwPass, Resumed(k, ind + 1))
        by { NoLead(ind + 1, WordLine(KwPass, Resumed(k, ind + 1))); }
    } else {
      BodyLine(b, ind + 1, k);
      LayBody(b, ind + 1, k);
    }
    Enter(lines, ind);
    Leave(k, ind);
    NoLead(ind + 1, WordLine(KwPass, Cons(Dedent, Resumed(k, ind))));
  }

  lemma NoLead(ind: nat, k: Toks)
    ensures Lead(false, ind, k) == k
  {
  }

  lemma {:induction false} LayBody(b: seq<Stmt>, ind: nat, k: Toks)
    requires WfBody(b) && Shallow(k, ind)
    ensures Resumed(PrintBody(true, b, ind, k), ind) == PrintBody(false, b, ind, Resumed(k, ind))
    decreases b, 20
  {
    hide PrintStmt, Resumed, Shallow, WfStmt;
    if b != [] {
      BodyLine(b[1..], ind, k);
      LayBody(b[1..], ind, k);
      LayStmt(b[0], ind, PrintBody(true, b[1..], ind, k));
    }
  }

  lemma {:induction false} LayStmt(s: Stmt, ind: nat, k: Toks)
    requires WfStmt(s) && Shallow(k, ind)
    ensures Resumed(PrintStmt(true, s, ind, k), ind) == PrintStmt(false, s, ind, Resumed(k, ind))
    decreases s, 20
  {
    hide PrintSimple, PrintIf, PrintWhile, PrintFor, PrintTry, PrintDecorators, PrintDef, PrintClass, Seen, Resumed,
      Levels4, Lead, Shallow, Text, WfStmt;
    if Simple(s) {
      var t := PrintSimple(s, Cons(Newline, k));
      SimpleText(s, k);
      LeadLine(t, ind);
      InSimple(s, Cons(Newline, k), Lay4(ind));
      EndOfLine(k, ind);
      NoLead(ind, PrintSimple(s, Cons(Newline, Resumed(k, ind))));
    } else if s.If? {
      LayIf(KwIf, s, ind, k);
    } else if s.While? {
      LayWhile(s, ind, k);
    } else if s.For? {
      LayFor(s, ind, k);
    } else if s.Try? {
      LayTry(s, ind, k);
    } else if s.FunctionDef? {
      LayDef(s, ind, k);
    } else {
      LayClass(s, ind, k);
    }
  }

  lemma {:induction false} LayElse(b: seq<Stmt>, ind: nat, k: Toks)
    requires WfBody(b) && Shallow(k, ind)
    ensures Resumed(PrintElse(true, b, ind, k), ind) == PrintElse(false, b, ind, Resumed(k, ind))
    ensures Resumed(PrintFinally(true, b, ind, k), ind) == PrintFinally(false, b, ind, Resumed(k, ind))
    ensures Shallow(PrintElse(true, b, ind, k), ind) && Shallow(PrintFinally(true, b, ind, k), ind)
    decreases b, 22
  {
    hide PrintSuite, Seen, Resumed, Levels4, Lead, Shallow, LineAt, Text;
    if b != [] {
      var t := PrintSuite(true, b, ind, k);
      LaySuite(b, ind, k);
      forall w | w == KwElse || w == KwFinally
        ensures Resumed(Lead(true, ind, Cons(Nm(w), t)), ind) == Cons(Nm(w), PrintSuite(false, b, ind, Resumed(k, ind)))
        ensures Shallow(Lead(true, ind, Cons(Nm(w), t)), ind)
      {
        NameText(w, t);
        LeadLine(Cons(Nm(w), t), ind);
        LineIsShallow(Lead(true, ind, Cons(Nm(w), t)), ind);
        Flat(Nm(w), t, 0, Lay4(ind));
      }
      NoLead(ind, Cons(Nm(KwElse), PrintSuite(false, b, ind, Resumed(k, ind))));
      NoLead(ind, Cons(Nm(KwFinally), PrintSuite(false, b, ind, Resumed(k, ind))));
    }
  }

  lemma {:induction false} LayIf(w: Word, s: Stmt, ind: nat, k: Toks)
    requires s.If? && WfStmt(s) && Shallow(k, ind)
    ensures Resumed(PrintIf(true, w, s, ind, k), ind) == PrintIf(false, w, s, ind, Resumed(k, ind))
    ensures Shallow(PrintIf(true, w, s, ind, k), ind)
    decreases s, 10
  {
    hide Print, PrintSuite, PrintElse, Seen, Resumed, Levels4, Lead, Shallow, LineAt, Text, Wf, WfBody;
    var elif := IsElif(s.orelse);
    if elif {
      WfOnly(s.orelse);
      LayIf(KwElif, s.orelse[0], ind, k);
    } else {
      LayElse(s.orelse, ind, k);
    }
    var v := if elif then PrintIf(true, KwElif, s.orelse[0], ind, k) else PrintElse(true, s.orelse, ind, k);
    var u := PrintSuite(true, s.body, ind, v);
    var t := Print(s.test, P_TEST, u);
    NameText(w, t);
    LeadLine(Cons(Nm(w), t), ind);
    LineIsShallow(Lead(true, ind, Cons(Nm(w), t)), ind);
    Flat(Nm(w), t, 0, Lay4(ind));
    InPrint(s.test, P_TEST, u, 0, Lay4(ind));
    LaySuite(s.body, ind, v);
    NoLead(ind, Cons(Nm(w), Print(s.test, P_TEST, PrintSuite(false, s.body, ind, Resumed(v, ind)))));
  }

  lemma {:induction false} LayWhile(s: Stmt, ind: nat, k: Toks)
    requires s.While? && WfStmt(s) && Shallow(k, ind)
    ensures Resumed(Lead(true, ind, PrintWhile(true, s, ind, k)), ind) ==
      Lead(false, ind, PrintWhile(false, s, ind, Resumed(k, ind)))
    decreases s, 10
  {
    hide Print, PrintSuite, PrintElse, Seen, Resumed, Levels4, Lead, Shallow, LineAt, Text;
    LayElse(s.orelse, ind, k);
    var v := PrintElse(true, s.orelse, ind, k);
    var u := PrintSuite(true, s.body, ind, v);
    var t := Print(s.test, P_TEST, u);
    NameText(KwWhile, t);
    LeadLine(Cons(Nm(KwWhile), t), ind);
    Flat(Nm(KwWhile), t, 0, Lay4(ind));
    InPrint(s.test, P_TEST, u, 0, Lay4(ind));
    LaySuite(s.body, ind, v);
    NoLead(ind, PrintWhile(false, s, ind, Resumed(k, ind)));
  }

  lemma {:induction false} LayFor(s: Stmt, ind: nat, k: Toks)
    requires s.For? && WfStmt(s) && Shallow(k, ind)
    ensures Resumed(Lead(true, ind, PrintFor(true, s, ind, k)), ind) ==
      Lead(false, ind, PrintFor(false, s, ind, Resumed(k, ind)))
    decreases s, 10
  {
    hide Print, PrintSuite, PrintElse, Seen, Resumed, Levels4, Lead, Shallow, LineAt, Text;
    LayElse(s.orelse, ind, k);
    var v := PrintElse(true, s.orelse, ind, k);
    var u := PrintSuite(true, s.body, ind, v);
    var i := Print(s.iter, P_TUPLE, u);
    var t := Print(s.ftarget, P_TUPLE, Cons(Nm(KwIn), i));
    var l := Lay4(ind);
    NameText(KwAsync, Cons(Nm(KwFor), t));
    NameText(KwFor, t);
    LeadLine(PrintFor(true, s, ind, k), ind);
    Flat(Nm(KwAsync), Cons(Nm(KwFor), t), 0, l);
    Flat(Nm(KwFor), t, 0, l);
    InPrint(s.ftarget, P_TUPLE, Cons(Nm(KwIn), i), 0, l);
    Flat(Nm(KwIn), i, 0, l);
    InPrint(s.iter, P_TUPLE, u, 0, l);
    LaySuite(s.body, ind, v);
    NoLead(ind, PrintFor(false, s, ind, Resumed(k, ind)));
  }

  lemma {:induction false} LayTry(s: Stmt, ind: nat, k: Toks)
    requires s.Try? && WfStmt(s) && Shallow(k, ind)
    ensures Resumed(Lead(true, ind, PrintTry(true, s, ind, k)), ind) ==
      Lead(false, ind, PrintTry(false, s, ind, Resumed(k, ind)))
    decreases s, 10
  {
    hide PrintSuite, PrintElse, PrintFinally, PrintHandlers, Seen, Resumed, Levels4, Lead, Shallow, LineAt, Text;
    var f := PrintFinally(true, s.finalbody, ind, k);
    var o := PrintElse(true, s.orelse, ind, f);
    var h := PrintHandlers(true, s.star, s.handlers, ind, o);
    LayElse(s.finalbody, ind, k);
    LayElse(s.orelse, ind, f);
    LayHandlers(s.star, s.handlers, ind, o);
    LaySuite(s.body, ind, h);
    var t := PrintSuite(true, s.body, ind, h);
    NameText(KwTry, t);
    LeadLine(Cons(Nm(KwTry), t), ind);
    Flat(Nm(KwTry), t, 0, Lay4(ind));
    NoLead(ind, PrintTry(false, s, ind, Resumed(k, ind)));
  }

  lemma {:induction false} LayHandlers(star: bool, hs: seq<Handler>, ind: nat, k: Toks)
    requires WfHandlers(hs) && Shallow(k, ind)
    ensures Resumed(PrintHandlers(true, star, hs, ind, k), ind) == PrintHandlers(false, star, hs, ind, Resumed(k, ind))
    ensures Shallow(PrintHandlers(true, star, hs, ind, k), ind)
    decreases hs
  {
    hide PrintHandler, Seen, Resumed, Levels4, Lead, Shallow, LineAt, Text, WfHandler;
    if hs != [] {
      var rest := PrintHandlers(true, star, hs[1..], ind, k);
      LayHandlers(star, hs[1..], ind, k);
      LayHandler(star, hs[0], ind, rest);
      LeadLine(PrintHandler(true, star, hs[0], ind, rest), ind);
      LineIsShallow(Lead(true, ind, PrintHandler(true, star, hs[0], ind, rest)), ind);
      NoLead(ind, PrintHandler(false, star, hs[0], ind, Resumed(rest, ind)));
    }
  }

  lemma {:induction false} LayHandler(star: bool, h: Handler, ind: nat, k: Toks)
    requires WfHandler(h) && Shallow(k, ind)
    ensures Seen(PrintHandler(true, star, h, ind, k), 0, Lay4(ind)) ==
      PrintHandler(false, star, h, ind, Resumed(k, ind))
    ensures Text(PrintHandler(true, star, h, ind, k))
    decreases h
  {
    hide Print, PrintSuite, Seen, Resumed, Levels4, Shallow;
    var l := Lay4(ind);
    var suite := PrintSuite(true, h.body, ind, k);
    LaySuite(h.body, ind, k);
    var named := suite;
    if h.name.Some? {
      Flat(Nm(Ident(h.name.value)), suite, 0, l);
      Flat(Nm(KwAs), Cons(Nm(Ident(h.name.value)), suite), 0, l);
      named := Cons(Nm(KwAs), Cons(Nm(Ident(h.name.value)), suite));
    }
    var what := suite;
    if h.typ.Some? {
      InPrint(h.typ.value, P_TEST, named, 0, l);
      what := Print(h.typ.value, P_TEST, named);
    }
    Flat(Star, what, 0, l);
    Flat(Nm(KwExcept), if star then Cons(Star, what) else what, 0, l);
  }

  lemma {:induction false} LayDecorators(ds: seq<Expr>, ind: nat, k: Toks)
    requires LineAt(k, ind)
    ensures Resumed(PrintDecorators(true, ds, ind, k), ind) == PrintDecorators(false, ds, ind, Resumed(k, ind))
    decreases ds
  {
    hide Print, Seen, Resumed, Levels4, Lead, LineAt, Text;
    if ds != [] {
      var rest := PrintDecorators(true, ds[1..], ind, k);
      var t := Print(ds[0], P_TEST, Cons(Newline, rest));
      LayDecorators(ds[1..], ind, k);
      NameText(KwPass, t);
      LeadLine(Cons(At, t), ind);
      Flat(At, t, 0, Lay4(ind));
      InPrint(ds[0], P_TEST, Cons(Newline, rest), 0, Lay4(ind));
      EndOfLine(rest, ind);
      NoLead(ind, Cons(At, Print(ds[0], P_TEST, Cons(Newline, Resumed(rest, ind)))));
    }
  }

  lemma {:induction false} LayDef(s: Stmt, ind: nat, k: Toks)
    requires s.FunctionDef? && WfStmt(s) && Shallow(k, ind)
    ensures Resumed(PrintDecorators(true, s.decorators, ind, Lead(true, ind, PrintDef(true, s, ind, k))), ind) ==
            PrintDecorators(false, s.decorators, ind, Lead(false, ind, PrintDef(false, s, ind, Resumed(k, ind))))
    decreases s, 10
  {
    hide PrintSuite, PrintDecorators, PrintDef, Seen, Resumed, Levels4, Lead, Shallow, LineAt, Text;
    LaySuite(s.body, ind, k);
    LayDefLine(s, ind, k, Resumed(k, ind));
    LeadLine(PrintDef(true, s, ind, k), ind);
    LayDecorators(s.decorators, ind, Lead(true, ind, PrintDef(true, s, ind, k)));
    NoLead(ind, PrintDef(false, s, ind, Resumed(k, ind)));
  }

  lemma DefText(text: bool, s: Stmt, ind: nat, k: Toks)
    requires s.FunctionDef?
    ensures PrintDef(text, s, ind, k) ==
      var suite := PrintSuite(text, s.body, ind, k);
      var rtype := if s.rtype.Some? then Cons(Arrow, Print(s.rtype.value, P_TEST, suite)) else suite;
      var def := Cons(Nm(KwDef), Cons(Nm(Ident(s.name)), Cons(LPar, PrintArguments(s.params, Cons(RPar, rtype)))));
      if s.isAsync then Cons(Nm(KwAsync), def) else def
  {
    hide Print, PrintSuite, PrintArguments;
  }

  /** The line of a def, given its block. */
  lemma LayDefLine(s: Stmt, ind: nat, k: Toks, k': Toks)
    requires s.FunctionDef? && Seen(PrintSuite(true, s.body, ind, k), 0, Lay4(ind)) ==
      PrintSuite(false, s.body, ind, k')
    ensures Text(PrintDef(true, s, ind, k))
      && Seen(PrintDef(true, s, ind, k), 0, Lay4(ind)) == PrintDef(false, s, ind, k')
  {
    hide Print, PrintPositional, PrintSuite, PrintDef, Seen, Levels4, Text;
    DefText(true, s, ind, k);
    DefText(false, s, ind, k');
    var l := Lay4(ind);
    var u := PrintSuite(true, s.body, ind, k);
    var r := u;
    if s.rtype.Some? {
      Flat(Arrow, Print(s.rtype.value, P_TEST, u), 0, l);
      InPrint(s.rtype.value, P_TEST, u, 0, l);
      r := Cons(Arrow, Print(s.rtype.value, P_TEST, u));
    }
    var p := PrintArguments(s.params, Cons(RPar, r));
    var def := Cons(Nm(Ident(s.name)), Cons(LPar, p));
    Shut(RPar, r, 0, l);
    InPositional(s.params, 0, Cons(RPar, r), 1, l);
    Open(LPar, p, 0, l);
    Flat(Nm(Ident(s.name)), Cons(LPar, p), 0, l);
    Flat(Nm(KwDef), def, 0, l);
    Flat(Nm(KwAsync), Cons(Nm(KwDef), def), 0, l);
    NameText(KwDef, def);
    NameText(KwAsync, Cons(Nm(KwDef), def));
  }

  lemma {:induction false} LayClass(s: Stmt, ind: nat, k: Toks)
    requires s.ClassDef? && WfStmt(s) && Shallow(k, ind)
    ensures Resumed(PrintDecorators(true, s.decorators, ind, Lead(true, ind, PrintClass(true, s, ind, k))), ind) ==
            PrintDecorators(false, s.decorators, ind, Lead(false, ind, PrintClass(false, s, ind, Resumed(k, ind))))
    decreases s, 10
  {
    hide PrintJoin, PrintKeywords, PrintSuite, PrintDecorators, Seen, Resumed, Levels4, Lead, Shallow, LineAt, Text;
    var l := Lay4(ind);
    var u := PrintSuite(true, s.body, ind, k);
    LaySuite(s.body, ind, k);
    var c := PrintBases(s.bases, s.keywords, u);
    var kw := PrintKeywords(s.keywords, s.bases == [], Cons(RPar, u));
    Shut(RPar, u, 0, l);
    InKeywords(s.keywords, s.bases == [], Cons(RPar, u), 1, l);
    InJoin(Comma, s.bases, P_TEST, kw, 1, l);
    Open(LPar, PrintJoin(Comma, s.bases, P_TEST, kw), 0, l);
    Flat(Nm(Ident(s.name)), c, 0, l);
    Flat(Nm(KwClass), Cons(Nm(Ident(s.name)), c), 0, l);
    NameText(KwClass, Cons(Nm(Ident(s.name)), c));
    LeadLine(PrintClass(true, s, ind, k), ind);
    LayDecorators(s.decorators, ind, Lead(true, ind, PrintClass(true, s, ind, k)));
    NoLead(ind, PrintClass(false, s, ind, Resumed(k, ind)));
  }

  /** A whole module's text: its logical tokens are those of its statements. */
  lemma ModuleLayout(b: seq<Stmt>)
    requires WfBody(b)
    ensures Logical(PrintBody(true, b, 0, End)) == PrintBody(false, b, 0, End)
  {
    hide PrintBody, WfBody, Start;
    LayBody(b, 0, End);
    assert Levels4(0) == [0];
    EndAtZero();
  }

  lemma EndAtZero()
    ensures Resumed(End, 0) == End
  {
  }
}
