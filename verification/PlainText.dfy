/** Printed modules are plain: their text holds nothing but blanks, line ends and content, their
    tokens nothing but content and layout tokens.  With that the whole chain runs: print, scan,
    parse. */
module PlainText {
  import opened Tokens
  import opened Ast
  import opened Unparse
  import opened Layout
  import opened OneLine
  import opened UnparseStmt
  import opened Reading
  import opened StmtReading
  import opened StmtGrammar
  import opened BlockLayout
  import opened ModuleRoundTrip
  import PrinterState
  import StmtPrinterState
  import StmtParserState

  /** The screen for texts or for streams of tokens. */
  function Sieve(text: bool): Layer {
    Screen(!text)
  }

  lemma Through(text: bool, x: Tok, k: Toks)
    requires Written(!text, x)
    ensures Seen(Cons(x, k), 0, Sieve(text)) == Cons(x, Seen(k, 0, Sieve(text)))
  {
  }

  lemma {:induction false} ThroughLead(text: bool, ind: nat, k: Toks)
    ensures Seen(Lead(text, ind, k), 0, Sieve(text)) == Lead(text, ind, Seen(k, 0, Sieve(text)))
  {
    if text {
      ThroughSpaces(4 * ind, k);
    }
  }

  lemma {:induction false} ThroughSpaces(n: nat, k: Toks)
    ensures Seen(Spaces(n, k), 0, Sieve(true)) == Spaces(n, Seen(k, 0, Sieve(true)))
    decreases n
  {
    if n > 0 {
      ThroughSpaces(n - 1, k);
      Through(true, Space, Spaces(n - 1, k));
    }
  }

  lemma {:induction false} ThroughSuite(text: bool, b: seq<Stmt>, ind: nat, k: Toks)
    ensures Seen(PrintSuite(text, b, ind, k), 0, Sieve(text)) == PrintSuite(text, b, ind, Seen(k, 0, Sieve(text)))
    decreases b, 21
  {
    hide PrintBody, Seen, Lead;
    var k' := if text then k else Cons(Dedent, k);
    if !text {
      Through(text, Dedent, k);
    }
    Through(text, Newline, k');
    Through(text, Nm(KwPass), Cons(Newline, k'));
    ThroughLead(text, ind + 1, WordLine(KwPass, k'));
    if b != [] {
      ThroughBody(text, b, ind + 1, k');
    }
    var lines := if b == [] then Lead(text, ind + 1, WordLine(KwPass, k')) else PrintBody(text, b, ind + 1, k');
    var block := if text then lines else Cons(Indent, lines);
    if !text {
      Through(text, Indent, lines);
    }
    Through(text, Newline, block);
    Through(text, Colon, Cons(Newline, block));
  }

  lemma {:induction false} ThroughBody(text: bool, b: seq<Stmt>, ind: nat, k: Toks)
    ensures Seen(PrintBody(text, b, ind, k), 0, Sieve(text)) == PrintBody(text, b, ind, Seen(k, 0, Sieve(text)))
    decreases b, 20
  {
    hide PrintStmt, Seen;
    if b != [] {
      ThroughStmt(text, b[0], ind, PrintBody(text, b[1..], ind, k));
      ThroughBody(text, b[1..], ind, k);
    }
  }

  lemma {:induction false} ThroughStmt(text: bool, s: Stmt, ind: nat, k: Toks)
    ensures Seen(PrintStmt(text, s, ind, k), 0, Sieve(text)) == PrintStmt(text, s, ind, Seen(k, 0, Sieve(text)))
    decreases s, 20
  {
    hide PrintSimple, PrintIf, PrintWhile, PrintFor, PrintTry, PrintDecorators, PrintDef, PrintClass, Seen, Lead;
    if Simple(s) {
      ThroughLead(text, ind, PrintSimple(s, Cons(Newline, k)));
      InSimple(s, Cons(Newline, k), Sieve(text));
      Through(text, Newline, k);
    } else if s.If? {
      ThroughIf(text, KwIf, s, ind, k);
    } else if s.While? {
      ThroughWhile(text, s, ind, k);
      ThroughLead(text, ind, PrintWhile(text, s, ind, k));
    } else if s.For? {
      ThroughFor(text, s, ind, k);
      ThroughLead(text, ind, PrintFor(text, s, ind, k));
    } else if s.Try? {
      ThroughTry(text, s, ind, k);
      ThroughLead(text, ind, PrintTry(text, s, ind, k));
    } else if s.FunctionDef? {
      ThroughDef(text, s, ind, k);
      ThroughLead(text, ind, PrintDef(text, s, ind, k));
      ThroughDecorators(text, s.decorators, ind, Lead(text, ind, PrintDef(text, s, ind, k)));
    } else {
      ThroughClass(text, s, ind, k);
      ThroughLead(text, ind, PrintClass(text, s, ind, k));
      ThroughDecorators(text, s.decorators, ind, Lead(text, ind, PrintClass(text, s, ind, k)));
    }
  }

  lemma {:induction false} ThroughElse(text: bool, b: seq<Stmt>, ind: nat, k: Toks)
    ensures Seen(PrintElse(text, b, ind, k), 0, Sieve(text)) == PrintElse(text, b, ind, Seen(k, 0, Sieve(text)))
    ensures Seen(PrintFinally(text, b, ind, k), 0, Sieve(text)) == PrintFinally(text, b, ind, Seen(k, 0, Sieve(text)))
    decreases b, 22
  {
    hide PrintSuite, Seen, Lead;
    if b != [] {
      var u := PrintSuite(text, b, ind, k);
      ThroughSuite(text, b, ind, k);
      Through(text, Nm(KwElse), u);
      Through(text, Nm(KwFinally), u);
      ThroughLead(text, ind, Cons(Nm(KwElse), u));
      ThroughLead(text, ind, Cons(Nm(KwFinally), u));
    }
  }

  lemma {:induction false} ThroughIf(text: bool, w: Word, s: Stmt, ind: nat, k: Toks)
    requires s.If?
    ensures Seen(PrintIf(text, w, s, ind, k), 0, Sieve(text)) == PrintIf(text, w, s, ind, Seen(k, 0, Sieve(text)))
    decreases s, 10
  {
    hide Print, PrintSuite, PrintElse, Seen, Lead;
    if IsElif(s.orelse) {
      ThroughIf(text, KwElif, s.orelse[0], ind, k);
    } else {
      ThroughElse(text, s.orelse, ind, k);
    }
    var v := if IsElif(s.orelse) then PrintIf(text, KwElif, s.orelse[0], ind, k) else PrintElse(text, s.orelse, ind, k);
    var u := PrintSuite(text, s.body, ind, v);
    ThroughSuite(text, s.body, ind, v);
    InPrint(s.test, P_TEST, u, 0, Sieve(text));
    Through(text, Nm(w), Print(s.test, P_TEST, u));
    ThroughLead(text, ind, Cons(Nm(w), Print(s.test, P_TEST, u)));
  }

  lemma {:induction false} ThroughWhile(text: bool, s: Stmt, ind: nat, k: Toks)
    requires s.While?
    ensures Seen(PrintWhile(text, s, ind, k), 0, Sieve(text)) == PrintWhile(text, s, ind, Seen(k, 0, Sieve(text)))
    decreases s, 10
  {
    hide Print, PrintSuite, PrintElse, Seen;
    var v := PrintElse(text, s.orelse, ind, k);
    var u := PrintSuite(text, s.body, ind, v);
    ThroughElse(text, s.orelse, ind, k);
    ThroughSuite(text, s.body, ind, v);
    InPrint(s.test, P_TEST, u, 0, Sieve(text));
    Through(text, Nm(KwWhile), Print(s.test, P_TEST, u));
  }

  lemma {:induction false} ThroughFor(text: bool, s: Stmt, ind: nat, k: Toks)
    requires s.For?
    ensures Seen(PrintFor(text, s, ind, k), 0, Sieve(text)) == PrintFor(text, s, ind, Seen(k, 0, Sieve(text)))
    decreases s, 10
  {
    hide Print, PrintSuite, PrintElse, Seen;
    var v := PrintElse(text, s.orelse, ind, k);
    var u := PrintSuite(text, s.body, ind, v);
    var i := Print(s.iter, P_TUPLE, u);
    var t := Print(s.ftarget, P_TUPLE, Cons(Nm(KwIn), i));
    ThroughElse(text, s.orelse, ind, k);
    ThroughSuite(text, s.body, ind, v);
    InPrint(s.iter, P_TUPLE, u, 0, Sieve(text));
    Through(text, Nm(KwIn), i);
    InPrint(s.ftarget, P_TUPLE, Cons(Nm(KwIn), i), 0, Sieve(text));
    Through(text, Nm(KwFor), t);
    Through(text, Nm(KwAsync), Cons(Nm(KwFor), t));
  }

  lemma {:induction false} ThroughTry(text: bool, s: Stmt, ind: nat, k: Toks)
    requires s.Try?
    ensures Seen(PrintTry(text, s, ind, k), 0, Sieve(text)) == PrintTry(text, s, ind, Seen(k, 0, Sieve(text)))
    decreases s, 10
  {
    hide PrintSuite, PrintElse, PrintFinally, PrintHandlers, Seen;
    var f := PrintFinally(text, s.finalbody, ind, k);
    var o := PrintElse(text, s.orelse, ind, f);
    var h := PrintHandlers(text, s.star, s.handlers, ind, o);
    ThroughElse(text, s.finalbody, ind, k);
    ThroughElse(text, s.orelse, ind, f);
    ThroughHandlers(text, s.star, s.handlers, ind, o);
    ThroughSuite(text, s.body, ind, h);
    Through(text, Nm(KwTry), PrintSuite(text, s.body, ind, h));
  }

  lemma {:induction false} ThroughHandlers(text: bool, star: bool, hs: seq<Handler>, ind: nat, k: Toks)
    ensures Seen(PrintHandlers(text, star, hs, ind, k), 0, Sieve(text)) ==
      PrintHandlers(text, star, hs, ind, Seen(k, 0, Sieve(text)))
    decreases hs
  {
    hide PrintHandler, Seen, Lead;
    if hs != [] {
      var rest := PrintHandlers(text, star, hs[1..], ind, k);
      ThroughHandlers(text, star, hs[1..], ind, k);
      ThroughHandler(text, star, hs[0], ind, rest);
      ThroughLead(text, ind, PrintHandler(text, star, hs[0], ind, rest));
    }
  }

  lemma {:induction false} ThroughHandler(text: bool, star: bool, h: Handler, ind: nat, k: Toks)
    ensures Seen(PrintHandler(text, star, h, ind, k), 0, Sieve(text)) ==
      PrintHandler(text, star, h, ind, Seen(k, 0, Sieve(text)))
    decreases h
  {
    hide Print, PrintSuite, Seen;
    var suite := PrintSuite(text, h.body, ind, k);
    ThroughSuite(text, h.body, ind, k);
    var named := suite;
    if h.name.Some? {
      Through(text, Nm(Ident(h.name.value)), suite);
      Through(text, Nm(KwAs), Cons(Nm(Ident(h.name.value)), suite));
      named := Cons(Nm(KwAs), Cons(Nm(Ident(h.name.value)), suite));
    }
    var what := suite;
    if h.typ.Some? {
      InPrint(h.typ.value, P_TEST, named, 0, Sieve(text));
      what := Print(h.typ.value, P_TEST, named);
    }
    Through(text, Star, what);
    Through(text, Nm(KwExcept), if star then Cons(Star, what) else what);
  }

  lemma {:induction false} ThroughDecorators(text: bool, ds: seq<Expr>, ind: nat, k: Toks)
    ensures Seen(PrintDecorators(text, ds, ind, k), 0, Sieve(text)) ==
      PrintDecorators(text, ds, ind, Seen(k, 0, Sieve(text)))
    decreases ds
  {
    hide Print, Seen, Lead;
    if ds != [] {
      var rest := PrintDecorators(text, ds[1..], ind, k);
      ThroughDecorators(text, ds[1..], ind, k);
      Through(text, Newline, rest);
      InPrint(ds[0], P_TEST, Cons(Newline, rest), 0, Sieve(text));
      Through(text, At, Print(ds[0], P_TEST, Cons(Newline, rest)));
      ThroughLead(text, ind, Cons(At, Print(ds[0], P_TEST, Cons(Newline, rest))));
    }
  }

  lemma {:induction false} ThroughDef(text: bool, s: Stmt, ind: nat, k: Toks)
    requires s.FunctionDef?
    ensures Seen(PrintDef(text, s, ind, k), 0, Sieve(text)) == PrintDef(text, s, ind, Seen(k, 0, Sieve(text)))
    decreases s, 10
  {
    hide Print, PrintPositional, PrintSuite, Seen;
    var l := Sieve(text);
    var u := PrintSuite(text, s.body, ind, k);
    ThroughSuite(text, s.body, ind, k);
    var r := u;
    if s.rtype.Some? {
      Through(text, Arrow, Print(s.rtype.value, P_TEST, u));
      InPrint(s.rtype.value, P_TEST, u, 0, l);
      r := Cons(Arrow, Print(s.rtype.value, P_TEST, u));
    }
    var p := PrintArguments(s.params, Cons(RPar, r));
    var name := Cons(Nm(Ident(s.name)), Cons(LPar, p));
    Through(text, RPar, r);
    InPositional(s.params, 0, Cons(RPar, r), 0, l);
    Through(text, LPar, p);
    Through(text, Nm(Ident(s.name)), Cons(LPar, p));
    Through(text, Nm(KwDef), name);
    Through(text, Nm(KwAsync), Cons(Nm(KwDef), name));
  }

  lemma {:induction false} ThroughClass(text: bool, s: Stmt, ind: nat, k: Toks)
    requires s.ClassDef?
    ensures Seen(PrintClass(text, s, ind, k), 0, Sieve(text)) == PrintClass(text, s, ind, Seen(k, 0, Sieve(text)))
    decreases s, 10
  {
    hide PrintJoin, PrintKeywords, PrintSuite, Seen;
    var u := PrintSuite(text, s.body, ind, k);
    var kw := PrintKeywords(s.keywords, s.bases == [], Cons(RPar, u));
    var c := PrintBases(s.bases, s.keywords, u);
    ThroughSuite(text, s.body, ind, k);
    Through(text, RPar, u);
    InKeywords(s.keywords, s.bases == [], Cons(RPar, u), 0, Sieve(text));
    InJoin(Comma, s.bases, P_TEST, kw, 0, Sieve(text));
    Through(text, LPar, PrintJoin(Comma, s.bases, P_TEST, kw));
    Through(text, Nm(Ident(s.name)), c);
    Through(text, Nm(KwClass), Cons(Nm(Ident(s.name)), c));
  }

  // ----- what a screen lets through -----

  lemma {:induction false} CleanIsPhysical(k: Toks)
    requires Clean(false, k) == k
    ensures Physical(k)
    decreases k
  {
    if k.Cons? {
      CleanIsPhysical(k.tl);
    }
  }

  lemma {:induction false} CleanIsAccepted(k: Toks)
    requires Clean(true, k) == k
    ensures Accepted(k)
    decreases k
  {
    if k.Cons? {
      CleanIsAccepted(k.tl);
    }
  }

  /** Every printed module is a text that the scanners accept. */
  lemma SourceIsAccepted(b: seq<Stmt>)
    requires WfBody(b)
    ensures Physical(Source(b)) && Accepted(Logical(Source(b)))
  {
    hide PrintBody, Logical, WfBody;
    ThroughBody(true, b, 0, End);
    ThroughBody(false, b, 0, End);
    CleanIsPhysical(Source(b));
    ModuleLayout(b);
    CleanIsAccepted(PrintBody(false, b, 0, End));
  }

  /** Print, scan, parse: the three machines in a row.  The module that comes out is ReBody(b),
      and it is b itself exactly when b is faithful. */
  method CheckRoundTrip(b: seq<Stmt>) returns (r: Option<seq<Stmt>>)
    requires WfBody(b)
    ensures r == ReBody(b)
    ensures r == Some(b) <==> FaithfulBody(b)
  {
    hide PrintBody, Logical, ParseModule, ReBody, FaithfulBody, WfBody, Physical, Accepted;
    var text := StmtPrinterState.UnparseModule(b);
    var stream := End;
    for i := |text| downto 0
      invariant stream == Stream(text[i..], End)
    {
      stream := Cons(text[i], stream);
      assert text[i..][1..] == text[i + 1..];
    }
    assert text[0..] == text;
    SourceIsAccepted(b);
    PrintThenParseModule(b);
    SameBody(b);
    r := StmtParserState.ParseFile(stream);
  }
}
